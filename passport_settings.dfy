/**
 * The passport-strategy settings handlers: save the submitted security settings,
 * then tear the provider's authentication strategy down and set it up again if
 * the saved configuration enables it.
 */
module PassportSettings {
  import opened Wrappers
  import opened ApiResponses

  datatype Provider = Ldap | Saml | Google | GitHub | Twitter

  /** What the passport service holds for one provider. */
  datatype StrategyState =
    | Unset         // torn down: no strategy registered
    | Active        // set up from the current configuration
    | SetupAborted  // setup threw part-way and nothing reset it

  /**
   * How the passport service's setup call ends. It is not part of the model,
   * so each handler takes the outcome as a parameter.
   */
  datatype SetupOutcome =
    | Succeeds
    | Throws(message: string)   // throws while the call runs
    | Rejects(message: string)  // returns a promise that rejects later

  /** The `crowi` configuration key that enables a provider. */
  function EnabledKey(p: Provider): string {
    match p
    case Ldap => "security:passport-ldap:isEnabled"
    case Saml => "security:passport-saml:isEnabled"
    case Google => "security:passport-google:isEnabled"
    case GitHub => "security:passport-github:isEnabled"
    case Twitter => "security:passport-twitter:isEnabled"
  }

  /** `Config.isEnabledPassport<Provider>(config)`. */
  predicate IsEnabled(config: map<string, string>, p: Provider) {
    EnabledKey(p) in config && config[EnabledKey(p)] == "true"
  }

  /** The bound `settingForm`, with the verdict and the messages of the form validator. */
  datatype SettingForm = SettingForm(values: map<string, string>, isValid: bool, errors: seq<string>)

  /**
   * The `crowi` configuration namespace (with its in-process cache, which the
   * handlers refresh on every write) and the passport service's strategies.
   */
  class PassportAdmin {
    var config: map<string, string>
    var strategies: map<Provider, StrategyState>

    ghost predicate Valid()
      reads this
    {
      forall p: Provider :: p in strategies
    }

    constructor (config: map<string, string>, strategies: map<Provider, StrategyState>)
      requires forall p: Provider :: p in strategies
      ensures Valid()
      ensures this.config == config && this.strategies == strategies
    {
      this.config := config;
      this.strategies := strategies;
    }

    /** saveSettingAsync: merge the form's keys into the namespace and refresh the cache. */
    method SaveSetting(values: map<string, string>)
      modifies this`config
      ensures config == old(config) + values
    {
      config := config + values;
    }

    /** `passportService.reset<Provider>Strategy()` */
    method ResetStrategy(p: Provider)
      requires Valid()
      modifies this`strategies
      ensures Valid()
      ensures strategies == old(strategies)[p := Unset]
    {
      strategies := strategies[p := Unset];
    }

    /**
     * `passportService.setup<Provider>Strategy(true)`: the strategy is active when
     * setup succeeds; a setup that fails, either way, leaves it aborted.
     */
    method SetupStrategy(p: Provider, outcome: SetupOutcome)
      requires Valid()
      modifies this`strategies
      ensures Valid()
      ensures strategies == old(strategies)[p := if outcome.Succeeds? then Active else SetupAborted]
    {
      strategies := strategies[p := if outcome.Succeeds? then Active else SetupAborted];
    }

    /**
     * securityPassport{Saml,Google,GitHub,Twitter}Setting. An invalid form is
     * rejected with nothing written. Otherwise the settings are saved and the
     * strategy is reset, then set up if now enabled. The setup is awaited, so a
     * throw and a rejection are both caught: the strategy is reset again, the
     * provider is left disabled (fail-closed), and the message is returned with
     * status false.
     */
    method SecurityPassportSetting(p: Provider, form: SettingForm, setup: SetupOutcome)
      returns (response: ApiResponse)
      requires Valid() && p != Ldap
      modifies this
      ensures Valid()
      ensures !form.isValid ==>
        && response == Rejected(form.errors)
        && config == old(config) && strategies == old(strategies)
      ensures form.isValid ==> config == old(config) + form.values
      ensures form.isValid && !IsEnabled(config, p) ==>
        strategies == old(strategies)[p := Unset] && response == Ok
      ensures form.isValid && IsEnabled(config, p) && setup.Succeeds? ==>
        strategies == old(strategies)[p := Active] && response == Ok
      ensures form.isValid && IsEnabled(config, p) && !setup.Succeeds? ==>
        strategies == old(strategies)[p := Unset] && response == Failed(setup.message)
      ensures form.isValid ==>
        && strategies[p] != SetupAborted
        && (strategies[p] == Active <==> IsEnabled(config, p) && response.status)
        && (forall q :: q != p ==> strategies[q] == old(strategies)[q])
    {
      if !form.isValid {
        return Rejected(form.errors);
      }
      SaveSetting(form.values);
      ResetStrategy(p);
      if IsEnabled(config, p) {
        SetupStrategy(p, setup);
        if !setup.Succeeds? {
          ResetStrategy(p);
          return Failed(setup.message);
        }
      }
      return Ok;
    }

    /**
     * securityPassportLdapSetting. The same steps without the rollback, and
     * the setup is neither awaited nor returned. A setup that throws rejects the
     * handler's promise chain, so no response is sent (None). A setup that
     * rejects later goes unnoticed, and the answer is status true. Either way the
     * strategy keeps whatever state the failed setup left.
     */
    method SecurityPassportLdapSetting(form: SettingForm, setup: SetupOutcome)
      returns (response: Option<ApiResponse>)
      requires Valid()
      modifies this
      ensures Valid()
      ensures !form.isValid ==>
        && response == Some(Rejected(form.errors))
        && config == old(config) && strategies == old(strategies)
      ensures form.isValid ==> config == old(config) + form.values
      ensures form.isValid && !IsEnabled(config, Ldap) ==>
        strategies == old(strategies)[Ldap := Unset] && response == Some(Ok)
      ensures form.isValid && IsEnabled(config, Ldap) && setup.Succeeds? ==>
        strategies == old(strategies)[Ldap := Active] && response == Some(Ok)
      ensures form.isValid && IsEnabled(config, Ldap) && setup.Throws? ==>
        strategies == old(strategies)[Ldap := SetupAborted] && response == None
      ensures form.isValid && IsEnabled(config, Ldap) && setup.Rejects? ==>
        strategies == old(strategies)[Ldap := SetupAborted] && response == Some(Ok)
    {
      if !form.isValid {
        return Some(Rejected(form.errors));
      }
      SaveSetting(form.values);
      ResetStrategy(Ldap);
      if IsEnabled(config, Ldap) {
        SetupStrategy(Ldap, setup);
        if setup.Throws? {
          return None;
        }
      }
      return Some(Ok);
    }
  }

  /**
   * Enabling SAML with a setup that throws leaves SAML disabled and reports the
   * error, while the same failure on LDAP leaves the aborted setup in place and
   * sends no answer; an LDAP setup that rejects later is even answered with
   * status true.
   */
  method FailedSetupScenario() {
    var strategies := map[Ldap := Unset, Saml := Unset, Google := Unset, GitHub := Unset, Twitter := Unset];
    forall p: Provider
      ensures p in strategies
    {
      match p
      case Ldap => case Saml => case Google => case GitHub => case Twitter =>
    }
    var admin := new PassportAdmin(map[], strategies);

    var samlForm := SettingForm(map[EnabledKey(Saml) := "true"], true, []);
    var response := admin.SecurityPassportSetting(Saml, samlForm, Throws("bad certificate"));
    assert IsEnabled(admin.config, Saml);
    assert admin.strategies[Saml] == Unset;
    assert response == ApiResponse(false, Some("bad certificate"));

    var ldapForm := SettingForm(map[EnabledKey(Ldap) := "true"], true, []);
    var ldapResponse := admin.SecurityPassportLdapSetting(ldapForm, Throws("bind failed"));
    assert admin.strategies[Ldap] == SetupAborted && ldapResponse == None;
    ldapResponse := admin.SecurityPassportLdapSetting(ldapForm, Rejects("bind failed"));
    assert admin.strategies[Ldap] == SetupAborted && ldapResponse == Some(ApiResponse(true, None));
    assert admin.strategies[Saml] == Unset;

    var invalid := SettingForm(map[EnabledKey(Saml) := "false"], false, ["bad entity id"]);
    var rejected := admin.SecurityPassportSetting(Saml, invalid, Succeeds);
    assert !rejected.status && IsEnabled(admin.config, Saml);
  }
}
