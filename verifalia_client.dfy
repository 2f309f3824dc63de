/**
 * The SDK's entry point (lib/verifalia/client.rb): which authenticator a new
 * client uses, which base URLs it connects to, the user agent it announces,
 * and the REST client and email-validations client it wires together.
 */
module VerifaliaClient {
  import opened Wrappers
  import opened RubyCore
  import opened Security
  import opened RestApi
  import opened EmailValidations

  /** Verifalia::Client::VERSION. */
  const VERSION: string := "2.1.0"

  const NO_AUTHENTICATOR: string :=
    "Username is nil and no other authentication method was specified: please visit https://verifalia.com/client-area to set up a new user, if you don't have one."

  /**
   * The authenticator a client holds: one the caller supplied (known here only by
   * an identity token), a username/password one, or a client-certificate one.
   */
  datatype Authenticator =
    | Custom(token: nat)
    | Basic(auth: UsernamePasswordAuthenticator)
    | Certificate(cert: string, key: Option<string>)

  /** "verifalia-rest-client/ruby/<RUBY_VERSION>-p<RUBY_PATCHLEVEL>/<VERSION>". */
  function UserAgent(rubyVersion: string, rubyPatchlevel: int): string {
    "verifalia-rest-client/ruby/" + rubyVersion + "-p" + IntToS(rubyPatchlevel) + "/" + VERSION
  }

  /** A non-negative patch level reads back from the user agent, after the "-p" that follows the Ruby version. */
  lemma UserAgentCarriesVersions(rubyVersion: string, rubyPatchlevel: nat)
    ensures var ua := UserAgent(rubyVersion, rubyPatchlevel);
            var head := "verifalia-rest-client/ruby/";
            var k := |head| + |rubyVersion|;
            && ua[..|head|] == head
            && ua[|head|..k] == rubyVersion
            && ua[k..k + 2] == "-p"
            && AllDigits(ua[k + 2..|ua| - |VERSION| - 1])
            && DigitsValue(ua[k + 2..|ua| - |VERSION| - 1]) == rubyPatchlevel
            && ua[|ua| - |VERSION| - 1..] == "/" + VERSION
  {
    var head := "verifalia-rest-client/ruby/";
    var digits := NatToS(rubyPatchlevel);
    var ua := UserAgent(rubyVersion, rubyPatchlevel);
    assert ua == head + rubyVersion + "-p" + digits + "/" + VERSION;
    var k := |head| + |rubyVersion|;
    assert ua[k + 2..|ua| - |VERSION| - 1] == digits;
    DigitsValueOfNatToS(rubyPatchlevel);
  }

  class Client {
    const authenticator: Authenticator
    /** @base_urls once defaulted, in the order given (the REST client keeps its own shuffled copy). */
    const baseUrls: seq<string>
    const rest: RestClient
    const emailValidations: EmailValidationsClient

    constructor (authenticator: Authenticator, baseUrls: seq<string>, userAgent: string, pick: nat -> nat)
      ensures this.authenticator == authenticator && this.baseUrls == baseUrls
      ensures rest.userAgent == userAgent && rest.currentBaseUrlIdx == 0
      ensures |rest.baseUrls| == |baseUrls| && multiset(rest.baseUrls) == multiset(baseUrls)
      ensures emailValidations.rest == rest
    {
      this.authenticator := authenticator;
      this.baseUrls := baseUrls;
      var restClient := new RestClient(userAgent, baseUrls, pick);
      this.rest := restClient;
      this.emailValidations := new EmailValidationsClient(restClient);
    }
  }

  /**
   * Client.new: an explicit authenticator wins; otherwise a username (even when a
   * certificate is given too) builds a username/password authenticator, whose
   * ArgumentError propagates; otherwise a certificate builds a certificate
   * authenticator and makes the client-certificate endpoints the default;
   * with none of the three the constructor raises ArgumentError. Base URLs the
   * caller passes are kept; without them the production endpoints are used.
   * `pick` stands for the random draws of the REST client's shuffle.
   */
  method NewClient(authenticator: Option<nat>, username: Option<string>, password: Option<string>,
                   sslClientCert: Option<string>, sslClientKey: Option<string>, baseUrls: Option<seq<string>>,
                   rubyVersion: string, rubyPatchlevel: int, pick: nat -> nat)
    returns (r: Result<Client, RubyError>)
    ensures authenticator.Some? ==> r.Success? && r.value.authenticator == Custom(authenticator.value)
    ensures authenticator.None? && username.Some? ==>
              && (r.Failure? <==> Blank(username.value))
              && (r.Failure? ==> r.error == ArgumentError(USERNAME_MISSING))
              && (r.Success? ==> r.value.authenticator.Basic?
                                 && r.value.authenticator.auth.username == username.value
                                 && r.value.authenticator.auth.password == (if password.Some? then password.value else ""))
    ensures authenticator.None? && username.None? && sslClientCert.Some? ==>
              r.Success? && r.value.authenticator == Certificate(sslClientCert.value, sslClientKey)
    ensures authenticator.None? && username.None? && sslClientCert.None? ==>
              r == Failure(ArgumentError(NO_AUTHENTICATOR))
    ensures r.Success? ==> r.value.baseUrls == (if baseUrls.Some? then baseUrls.value
                                                else if r.value.authenticator.Certificate? then BASE_CCA_URLS
                                                else BASE_URLS)
    ensures r.Success? ==> && r.value.rest.userAgent == UserAgent(rubyVersion, rubyPatchlevel)
                           && multiset(r.value.rest.baseUrls) == multiset(r.value.baseUrls)
                           && r.value.rest.currentBaseUrlIdx == 0
                           && r.value.emailValidations.rest == r.value.rest
  {
    var urls := baseUrls;
    var chosen: Authenticator;
    if authenticator.Some? {
      chosen := Custom(authenticator.value);
    } else if username.Some? {
      var basic := NewUsernamePasswordAuthenticator(username, password);
      if basic.Failure? {
        return Failure(basic.error);
      }
      chosen := Basic(basic.value);
    } else if sslClientCert.Some? {
      chosen := Certificate(sslClientCert.value, sslClientKey);
      if urls.None? {
        urls := Some(BASE_CCA_URLS);
      }
    } else {
      return Failure(ArgumentError(NO_AUTHENTICATOR));
    }
    if urls.None? {
      urls := Some(BASE_URLS);
    }
    var client := new Client(chosen, urls.value, UserAgent(rubyVersion, rubyPatchlevel), pick);
    r := Success(client);
  }
}
