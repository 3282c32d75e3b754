/** The mock identity-provider page. It reads the e-mail from its query, shows the
    provider of the e-mail's organisation, and after a delay signs the user out, tries to
    sign them up, signs them in with a fixed demo password, and redirects. The auth
    client is a foreign call: the calls made are recorded, their outcomes are
    parameters. The two timers are pending flags fired by the caller. */
module MockIdP {

  import opened Common
  import opened Text
  import Uri
  import Login

  /** `searchParams.get("email") || ""`: an absent parameter, like an empty one, gives "". */
  function EmailParam(query: Option<string>): (email: string)
    ensures query.None? ==> email == ""
    ensures query.Some? ==> email == query.value
  {
    match query
    case None => ""
    case Some(value) => if value != "" then value else ""
  }

  /** What the login page sends reaches this page unchanged. */
  lemma LoginHandsOverEmail(email: string)
    requires Login.IsAllowed(email)
    ensures Uri.DecodeQueryValue(Login.RedirectUrl(email)[|Login.MockIdpPath|..]) == Some(email)
    ensures EmailParam(Some(email)) == email
  {
    Login.RedirectCarriesEmail(email);
  }

  datatype ProviderConfig = ProviderConfig(
    orgName: string,
    logoUrl: string,
    providerName: string,
    providerLogo: string,
    color: string)

  const HeliosSuffix := "@helios-kliniken.de"

  const HeliosConfig := ProviderConfig(
    "Helios Kliniken",
    "https://upload.wikimedia.org/wikipedia/commons/thumb/b/b5/Helios_Kliniken_GmbH_Logo.svg/2560px-Helios_Kliniken_GmbH_Logo.svg.png",
    "Okta",
    "https://upload.wikimedia.org/wikipedia/commons/thumb/4/4c/Okta_logo.svg/2560px-Okta_logo.svg.png",
    "text-[#00B4AF]")

  const ChariteConfig := ProviderConfig(
    "Charité - Universitätsmedizin Berlin",
    "https://upload.wikimedia.org/wikipedia/commons/thumb/8/87/Charit%C3%A9_Logo.svg/2560px-Charit%C3%A9_Logo.svg.png",
    "Entra ID",
    "https://upload.wikimedia.org/wikipedia/commons/thumb/4/44/Microsoft_logo.svg/2048px-Microsoft_logo.svg.png",
    "text-[#003B79]")

  /** `getProviderConfig`: Helios with Okta exactly for an e-mail ending in
      "@helios-kliniken.de"; every other e-mail, the empty one included, gets Charité
      with Entra ID. */
  function GetProviderConfig(email: string): (config: ProviderConfig)
    ensures config == HeliosConfig <==> EndsWith(email, HeliosSuffix)
    ensures config == ChariteConfig <==> !EndsWith(email, HeliosSuffix)
  {
    if EndsWith(email, HeliosSuffix) then HeliosConfig else ChariteConfig
  }

  /** Any address at the Helios domain gets the Helios provider, whatever its local part. */
  lemma HeliosAddress(local: string)
    ensures GetProviderConfig(local + HeliosSuffix) == HeliosConfig
  {
    var email := local + HeliosSuffix;
    assert email[|email| - |HeliosSuffix|..] == HeliosSuffix;
  }

  /** An e-mail shorter than the suffix, such as the empty one, falls back to Charité. */
  lemma ShortEmailIsCharite(email: string)
    requires |email| < |HeliosSuffix|
    ensures GetProviderConfig(email) == ChariteConfig
  {
  }

  /** The two accounts the login page lets through each land at their own provider. */
  lemma AllowedAccountsProviders()
    ensures GetProviderConfig(Login.AllowedEmails[0]).providerName == "Entra ID"
    ensures GetProviderConfig(Login.AllowedEmails[1]).providerName == "Okta"
  {
    HeliosAddress("dr.house");
    assert Login.AllowedEmails[1] == "dr.house" + HeliosSuffix;
  }

  /** `status`: "initializing", "authenticating", "redirecting" or "error". */
  datatype IdpStatus = Initializing | Authenticating | Redirecting | Error

  /** The moves the status makes: initializing to authenticating when the delayed login
      starts, then to redirecting or to error once sign-in has answered. */
  predicate Advances(from: IdpStatus, to: IdpStatus)
    ensures Advances(from, to) ==> from != to && to != Initializing
    ensures from == Redirecting || from == Error ==> !Advances(from, to)
    ensures from == Initializing ==> (Advances(from, to) <==> to == Authenticating)
  {
    (from == Initializing && to == Authenticating)
    || (from == Authenticating && (to == Redirecting || to == Error))
  }

  /** The heading: the translation key and, while initializing, the organisation
      argument. */
  datatype Heading = LoginTo(org: string) | AuthenticatingHeading | SuccessHeading | ErrorHeading

  /** While initializing, the heading names the first space-separated word of the
      organisation; the other statuses have fixed headings. */
  function HeadingFor(status: IdpStatus, config: ProviderConfig): (heading: Heading)
    ensures heading.LoginTo? <==> status == Initializing
    ensures heading.LoginTo? ==> heading.org == Split(config.orgName, ' ')[0] && ' ' !in heading.org
    ensures status == Authenticating <==> heading == AuthenticatingHeading
    ensures status == Redirecting <==> heading == SuccessHeading
    ensures status == Error <==> heading == ErrorHeading
  {
    match status
    case Initializing =>
      SplitJoin(config.orgName, ' ');
      LoginTo(Split(config.orgName, ' ')[0])
    case Authenticating => AuthenticatingHeading
    case Redirecting => SuccessHeading
    case Error => ErrorHeading
  }

  /** "Helios" is the first word of the Helios organisation name. */
  lemma HeliosFirstWord()
    ensures HeliosConfig.orgName[6] == ' ' && HeliosConfig.orgName[..6] == "Helios"
    ensures forall k :: 0 <= k < 6 ==> HeliosConfig.orgName[k] != ' '
  {
  }

  /** "Charité" is the first word of the Charité organisation name. */
  lemma ChariteFirstWord()
    ensures ChariteConfig.orgName[7] == ' ' && ChariteConfig.orgName[..7] == "Charité"
    ensures forall k :: 0 <= k < 7 ==> ChariteConfig.orgName[k] != ' '
  {
  }

  /** The initial headings of the two providers: "Helios" and "Charité". */
  lemma ProviderHeadings()
    ensures HeadingFor(Initializing, HeliosConfig) == LoginTo("Helios")
    ensures HeadingFor(Initializing, ChariteConfig) == LoginTo("Charité")
  {
    HeliosFirstWord();
    FirstWordHeading(HeliosConfig, 6);
    ChariteFirstWord();
    FirstWordHeading(ChariteConfig, 7);
  }

  /** The initial heading names the text before the first space of the organisation. */
  lemma FirstWordHeading(config: ProviderConfig, i: nat)
    requires i < |config.orgName| && config.orgName[i] == ' '
    requires forall k :: 0 <= k < i ==> config.orgName[k] != ' '
    ensures HeadingFor(Initializing, config) == LoginTo(config.orgName[..i])
  {
    var s := config.orgName;
    SplitAtFirst(s[..i], ' ', s[i + 1..]);
    assert s == s[..i] + [' '] + s[i + 1..];
  }

  const DemoPassword := "demo-password-123"

  const FailureAlertPrefix := "SSO Simulation Failed: "

  /** A call to the auth client. */
  datatype AuthCall =
    | SignOut
    | SignUp(email: string, password: string, name: string)
    | SignIn(email: string, password: string)

  /** The sign-up display name: the text before the first "@" (the whole e-mail without
      one). */
  function SignUpName(email: string): (name: string)
    ensures '@' !in name
    ensures name == email || (|name| < |email| && email[..|name| + 1] == name + "@")
  {
    SplitJoin(email, '@');
    var parts := Split(email, '@');
    if |parts| == 1 then parts[0]
    else
      JoinFirst(parts, '@');
      parts[0]
  }

  /** Joining two or more pieces puts the separator right after the first one. */
  lemma JoinFirst(parts: seq<string>, sep: char)
    requires |parts| >= 2
    ensures |parts[0]| < |Join(parts, sep)|
    ensures Join(parts, sep)[..|parts[0]| + 1] == parts[0] + [sep]
  {
    var rest := Join(parts[1..], sep);
    assert Join(parts, sep) == parts[0] + [sep] + rest;
    assert (parts[0] + [sep] + rest)[..|parts[0]| + 1] == parts[0] + [sep];
  }

  /** The page's state. `loginTimer` and `redirectTimer` say whether the 1500 ms and the
      800 ms timers are pending. */
  class MockIdPPage {
    const email: string
    var status: IdpStatus
    var authCalls: seq<AuthCall>
    var alerts: seq<string>
    var location: Option<string>
    var loginTimer: bool
    var redirectTimer: bool

    /** Mounting the page: the e-mail is read once, the status starts at initializing,
        and the delayed login is scheduled. */
    constructor (query: Option<string>)
      ensures email == EmailParam(query) && status == Initializing
      ensures authCalls == [] && alerts == [] && location == None
      ensures loginTimer && !redirectTimer
    {
      email := EmailParam(query);
      status := Initializing;
      authCalls := [];
      alerts := [];
      location := None;
      loginTimer := true;
      redirectTimer := false;
    }

    /** The effect's cleanup cancels the delayed login if it has not fired. */
    method Unmount()
      modifies this`loginTimer
      ensures !loginTimer
    {
      loginTimer := false;
    }

    /** The delayed login fires: the status becomes authenticating and the session is
        signed out first. */
    method FireLoginTimer()
      requires loginTimer && status == Initializing
      modifies this`loginTimer, this`status, this`authCalls
      ensures !loginTimer && status == Authenticating && Advances(old(status), status)
      ensures authCalls == old(authCalls) + [SignOut]
    {
      loginTimer := false;
      status := Authenticating;
      authCalls := authCalls + [SignOut];
    }

    /** The rest of `performLogin`. Sign-up is attempted with the demo password and the
        local part as name; whether it fails makes no difference, since its error is
        swallowed and sign-in is attempted in every case. A sign-in error (`signInError`, its message) moves to
        error, alerts and sends the browser to the login page; success moves to
        redirecting and schedules the redirect to the dashboard. */
    method FinishLogin(signInError: Option<string>)
      requires status == Authenticating
      modifies this`status, this`authCalls, this`alerts, this`location, this`redirectTimer
      ensures Advances(old(status), status)
      ensures authCalls == old(authCalls) + [SignUp(email, DemoPassword, SignUpName(email)), SignIn(email, DemoPassword)]
      ensures signInError.Some? ==>
                && status == Error && alerts == old(alerts) + [FailureAlertPrefix + signInError.value]
                && location == Some("/login") && redirectTimer == old(redirectTimer)
      ensures signInError.None? ==>
                && status == Redirecting && alerts == old(alerts)
                && location == old(location) && redirectTimer
    {
      authCalls := authCalls + [SignUp(email, DemoPassword, SignUpName(email))];
      authCalls := authCalls + [SignIn(email, DemoPassword)];
      if signInError.Some? {
        status := Error;
        alerts := alerts + [FailureAlertPrefix + signInError.value];
        location := Some("/login");
        return;
      }
      status := Redirecting;
      redirectTimer := true;
    }

    /** The redirect timer fires and the browser goes to the dashboard. */
    method FireRedirectTimer()
      requires redirectTimer
      modifies this`redirectTimer, this`location
      ensures !redirectTimer && location == Some("/dashboard")
    {
      redirectTimer := false;
      location := Some("/dashboard");
    }
  }
}
