/** The login page: an e-mail field, an error line and a loading flag. Single sign-on is
    simulated: two fixed addresses are let through to the mock identity provider, any
    other address is refused with the SSO-domain message. Translated texts are
    represented by their translation keys. */
module Login {

  import opened Common
  import opened Text
  import Uri

  /** The only addresses the simulated single sign-on accepts. */
  const AllowedEmails: seq<string> := ["greg@charite.de", "dr.house@helios-kliniken.de"]

  const SsoDomainError := "login.error_sso_domain"

  const MockIdpPath := "/auth/sso-mock?email="

  /** `allowedEmails.includes(email)`: exact comparison, no trimming or case folding. An
      accepted address is non-empty plain ASCII. */
  predicate IsAllowed(email: string)
    ensures IsAllowed(email) ==> |email| > 0 && Uri.IsAscii(email)
  {
    email in AllowedEmails
  }

  /** Exactly the two listed addresses pass; a prefix, suffix or other spelling of one of
      them does not. */
  lemma AllowedExactly(email: string)
    ensures IsAllowed(email) <==> email == "greg@charite.de" || email == "dr.house@helios-kliniken.de"
  {
  }

  /** The address of the mock identity provider, with the e-mail as its query value. */
  function RedirectUrl(email: string): (url: string)
    ensures StartsWith(url, MockIdpPath) && url[|MockIdpPath|..] == Uri.EncodeURIComponent(email)
  {
    MockIdpPath + Uri.EncodeURIComponent(email)
  }

  /** The query value of the redirect decodes back to the accepted e-mail. */
  lemma RedirectCarriesEmail(email: string)
    requires IsAllowed(email)
    ensures Uri.DecodeQueryValue(RedirectUrl(email)[|MockIdpPath|..]) == Some(email)
  {
    Uri.DecodeEncode(email);
  }

  /** The page's state; `location` is where the browser was sent, if anywhere. */
  class LoginPage {
    var email: string
    var error: Option<string>
    var isLoading: bool
    var location: Option<string>

    constructor ()
      ensures email == "" && error == None && !isLoading && location == None
    {
      email := "";
      error := None;
      isLoading := false;
      location := None;
    }

    /** The submit button is disabled while a login is under way. */
    predicate SubmitDisabled()
      reads this
      ensures SubmitDisabled() <==> isLoading
    {
      isLoading
    }

    /** Typing in the field replaces the e-mail and clears a shown error. */
    method OnEmailChange(value: string)
      modifies this`email, this`error
      ensures email == value && error == None
    {
      email := value;
      error := None;
    }

    /** `handleSSOLogin`: loading starts and the error is cleared; an accepted e-mail
        sends the browser to the mock identity provider with loading left on; a refused
        one shows the SSO-domain error and ends loading without navigating. */
    method HandleSSOLogin()
      modifies this`error, this`isLoading, this`location
      ensures IsAllowed(email) ==>
                location == Some(RedirectUrl(email)) && error == None && SubmitDisabled()
      ensures !IsAllowed(email) ==>
                location == old(location) && error == Some(SsoDomainError) && !SubmitDisabled()
    {
      isLoading := true;
      error := None;
      if !IsAllowed(email) {
        error := Some(SsoDomainError);
        isLoading := false;
        return;
      }
      location := Some(RedirectUrl(email));
    }
  }
}
