/**
 * The `PayazaClient` binding of `PayazaServiceProvider::register`: choose the default
 * account, check that it exists and has a key, choose the environment, and build the
 * client from the base64-encoded key.
 */
module ServiceProvider {
  import opened Wrappers
  import opened Json
  import opened Enums
  import opened Strings
  import opened Exceptions

  /** One entry of `config('payaza.accounts')`: the account name and its settings array. */
  datatype AccountEntry = AccountEntry(name: string, settings: Json)

  /**
   * The configuration the closure reads: `payaza.default_account` (None when unset),
   * `payaza.accounts` in order, and `payaza.environment`.
   */
  datatype ProviderConfig = ProviderConfig(defaultAccount: Option<string>, accounts: seq<AccountEntry>, environment: Json)

  /** The client the closure returns: its token and its environment. */
  datatype PayazaClient = PayazaClient(token: string, env: Environment)

  const DefaultAccountName := "primary"

  /** `array_keys($accounts)`. */
  function Names(accounts: seq<AccountEntry>): (names: seq<string>)
    ensures |names| == |accounts|
    ensures forall i :: 0 <= i < |accounts| ==> names[i] == accounts[i].name
  {
    if accounts == [] then [] else [accounts[0].name] + Names(accounts[1..])
  }

  /** `$accounts[$name]` when that key exists. */
  function Lookup(accounts: seq<AccountEntry>, name: string): (settings: Option<Json>)
    ensures settings.Some? <==> name in Names(accounts)
    ensures settings.Some? ==> exists i :: 0 <= i < |accounts| && accounts[i] == AccountEntry(name, settings.value)
  {
    if accounts == [] then None
    else if accounts[0].name == name then Some(accounts[0].settings)
    else
      var settings := Lookup(accounts[1..], name);
      assert Names(accounts) == [accounts[0].name] + Names(accounts[1..]);
      assert forall i :: 1 <= i < |accounts| ==> accounts[i] == accounts[1..][i - 1];
      settings
  }

  function NoAccountMessage(name: string, accounts: seq<AccountEntry>): string {
    "No account configured for '" + name + "' - available: " + Join(Names(accounts), ",")
  }

  function NoKeyMessage(name: string): string {
    "API key for account '" + name + "' is not configured"
  }

  /** `config('payaza.environment') === 'live' ? LIVE : TEST`. */
  function SelectEnvironment(environment: Json): (env: Environment)
    ensures env == LIVE <==> environment == JStr("live")
  {
    if environment == JStr("live") then LIVE else TEST
  }

  /**
   * The binding closure. `base64` stands for `base64_encode`, whose `string` parameter
   * makes a truthy non-string key a TypeError under strict types.
   */
  function ResolveClient(cfg: ProviderConfig, base64: string -> string): (r: Result<PayazaClient>)
    ensures r.Ok? ==> AccountConfigured(cfg, cfg.defaultAccount.GetOr(DefaultAccountName))
    ensures r.Ok? ==> (r.value.env == LIVE <==> cfg.environment == JStr("live"))
    ensures r.Err? ==> r.error.InvalidArgument? || r.error == TypeError
  {
    var name := cfg.defaultAccount.GetOr(DefaultAccountName);
    var settings := Lookup(cfg.accounts, name);
    if cfg.accounts == [] || settings.None? || settings.value == JNull then
      Err(InvalidArgument(NoAccountMessage(name, cfg.accounts)))
    else
      var key := Coalesce(settings.value, "key", JStr(""));
      if !Truthy(key) then Err(InvalidArgument(NoKeyMessage(name)))
      else if !key.JStr? then Err(TypeError)
      else Ok(PayazaClient(base64(key.s), SelectEnvironment(cfg.environment)))
  }

  /** The settings of the default account, when `isset` holds for it. */
  predicate AccountConfigured(cfg: ProviderConfig, name: string) {
    Lookup(cfg.accounts, name).Some? && Lookup(cfg.accounts, name).value != JNull
  }

  /** An unset default account is "primary". */
  lemma DefaultAccountIsPrimary(cfg: ProviderConfig, base64: string -> string)
    requires cfg.defaultAccount.None?
    ensures ResolveClient(cfg, base64) == ResolveClient(cfg.(defaultAccount := Some("primary")), base64)
  {
  }

  /** A default account that is not configured (or an empty table) is rejected, listing the configured names. */
  lemma MissingAccount(cfg: ProviderConfig, base64: string -> string)
    requires !AccountConfigured(cfg, cfg.defaultAccount.GetOr(DefaultAccountName))
    ensures var name := cfg.defaultAccount.GetOr(DefaultAccountName);
      ResolveClient(cfg, base64) ==
        Err(InvalidArgument("No account configured for '" + name + "' - available: " + Join(Names(cfg.accounts), ",")))
  {
  }

  /** A configured account whose key is missing, null, "" or "0" is rejected. */
  lemma MissingKey(cfg: ProviderConfig, base64: string -> string)
    requires var name := cfg.defaultAccount.GetOr(DefaultAccountName);
      AccountConfigured(cfg, name) && !Truthy(Coalesce(Lookup(cfg.accounts, name).value, "key", JStr("")))
    ensures var name := cfg.defaultAccount.GetOr(DefaultAccountName);
      ResolveClient(cfg, base64) == Err(InvalidArgument("API key for account '" + name + "' is not configured"))
  {
    assert cfg.accounts != [];
  }

  /** The client is built exactly when the account is configured with a non-empty string key; its token encodes that key. */
  lemma ClientBuilt(cfg: ProviderConfig, base64: string -> string)
    ensures var name := cfg.defaultAccount.GetOr(DefaultAccountName);
      var r := ResolveClient(cfg, base64);
      (r.Ok? <==>
        (AccountConfigured(cfg, name) &&
         Isset(Lookup(cfg.accounts, name).value, "key") &&
         Lookup(cfg.accounts, name).value.fields["key"].JStr? &&
         Truthy(Lookup(cfg.accounts, name).value.fields["key"]))) &&
      (r.Ok? ==> r.value == PayazaClient(base64(Lookup(cfg.accounts, name).value.fields["key"].s),
                                         SelectEnvironment(cfg.environment))) &&
      (r.Ok? ==> (r.value.env == LIVE <==> cfg.environment == JStr("live")))
  {
    var name := cfg.defaultAccount.GetOr(DefaultAccountName);
    if AccountConfigured(cfg, name) {
      assert cfg.accounts != [];
    }
  }

  /** Selecting a default account that does not exist, with the two accounts the unit tests configure. */
  lemma InvalidDefaultAccount(base64: string -> string, primary: Json, premium: Json, environment: Json)
    ensures ResolveClient(ProviderConfig(Some("invalid"),
        [AccountEntry("primary", primary), AccountEntry("premium", premium)], environment), base64)
      == Err(InvalidArgument("No account configured for '" + "invalid" + "' - available: " + ("primary" + "," + "premium")))
  {
    var accounts := [AccountEntry("primary", primary), AccountEntry("premium", premium)];
    assert Names(accounts) == ["primary"] + ["premium"];
    JoinAppend(["primary"], "premium", ",");
    assert Lookup(accounts, "invalid") == None;
  }

  /** The unit tests' configuration: the primary account's key and the TEST environment. */
  lemma FixtureClient(base64: string -> string)
    ensures ResolveClient(ProviderConfig(Some("primary"),
        [AccountEntry("primary", JObj(map["key" := JStr("primary-test-key")])),
         AccountEntry("premium", JObj(map["key" := JStr("premium-test-key")]))], JStr("test")), base64)
      == Ok(PayazaClient(base64("primary-test-key"), TEST))
  {
  }
}
