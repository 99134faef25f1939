/**
 * Resolution of the OAuth2 client settings from an application bundle's
 * information dictionary (OAuth2WrapperConfig.swift). The bundle is a map
 * from key to string; a key whose value is not a string is simply absent.
 */
module Config {
  import opened Wrappers
  import opened Errors

  /** The six settings the bundle loader fills in. */
  datatype OAuth2WrapperConfig = OAuth2WrapperConfig(
    AuthURL: string,
    TokenURL: string,
    ClientID: string,
    ClientSecret: string,
    Scope: string,
    CallbackURL: string)

  /** Prefix used when the caller gives none (or an empty one). */
  const DefaultPrefix: string := "OAuth2"

  /** The loader does not read a callback URL; it stores this placeholder. */
  const CallbackPlaceholder: string := "fixme"

  /**
   * The required settings in the order the loader checks them, each with
   * the error reported when it is missing. The client secret is not here:
   * it falls back to the empty string.
   */
  const RequiredFields: seq<(string, OAuth2WrapperErrors)> := [
    ("AuthURL", MissingOAuth2AuthURL),
    ("TokenURL", MissingOAuth2TokenURL),
    ("ClientID", MissingOAuth2ClientID),
    ("Scope", MissingOAuth2Scope)
  ]

  /** The prefix the keys are built from. */
  function EffectivePrefix(prefix: Option<string>): (p: string)
    ensures p != ""
    ensures prefix.Some? && prefix.value != "" ==> p == prefix.value
    ensures prefix.None? || prefix.value == "" ==> p == DefaultPrefix
  {
    if prefix.Some? && prefix.value != "" then prefix.value else DefaultPrefix
  }

  /** The bundle key of setting `name`: the effective prefix followed by the name. */
  function Key(prefix: Option<string>, name: string): string
  {
    EffectivePrefix(prefix) + name
  }

  /** The bundle's string under `key`, if there is one. */
  function Lookup(bundle: map<string, string>, key: string): Option<string>
  {
    if key in bundle then Some(bundle[key]) else None
  }

  /** A looked-up value the loader treats as missing: absent or empty. */
  predicate Blank(v: Option<string>)
  {
    v.None? || v.value == ""
  }

  /** Setting `name` has a usable (present, non-empty) value. */
  predicate Supplied(bundle: map<string, string>, prefix: Option<string>, name: string)
  {
    !Blank(Lookup(bundle, Key(prefix, name)))
  }

  /** Builds the configuration, or reports the first missing required setting. */
  function NewOAuth2WrapperConfigFromBundle(bundle: map<string, string>, prefix: Option<string>)
    : (r: Result<OAuth2WrapperConfig, Error>)
    ensures r.Success? <==>
      && Supplied(bundle, prefix, "AuthURL")
      && Supplied(bundle, prefix, "TokenURL")
      && Supplied(bundle, prefix, "ClientID")
      && Supplied(bundle, prefix, "Scope")
    ensures r.Failure? ==>
      r.error.WrapperError? &&
      r.error.kind in {MissingOAuth2AuthURL, MissingOAuth2TokenURL, MissingOAuth2ClientID, MissingOAuth2Scope}
    ensures r.Success? ==>
      && r.value.AuthURL == bundle[Key(prefix, "AuthURL")] != ""
      && r.value.TokenURL == bundle[Key(prefix, "TokenURL")] != ""
      && r.value.ClientID == bundle[Key(prefix, "ClientID")] != ""
      && r.value.Scope == bundle[Key(prefix, "Scope")] != ""
      && r.value.ClientSecret == (if Supplied(bundle, prefix, "ClientSecret")
                                  then bundle[Key(prefix, "ClientSecret")] else "")
      && r.value.CallbackURL == CallbackPlaceholder
  {
    var withPrefix := EffectivePrefix(prefix);
    var authURL := Lookup(bundle, withPrefix + "AuthURL");
    var tokenURL := Lookup(bundle, withPrefix + "TokenURL");
    var clientID := Lookup(bundle, withPrefix + "ClientID");
    var clientSecret := Lookup(bundle, withPrefix + "ClientSecret");
    var scope := Lookup(bundle, withPrefix + "Scope");
    if Blank(authURL) then Failure(WrapperError(MissingOAuth2AuthURL))
    else if Blank(tokenURL) then Failure(WrapperError(MissingOAuth2TokenURL))
    else if Blank(clientID) then Failure(WrapperError(MissingOAuth2ClientID))
    else
      var secret := if Blank(clientSecret) then "" else clientSecret.value;
      if Blank(scope) then Failure(WrapperError(MissingOAuth2Scope))
      else Success(OAuth2WrapperConfig(
        authURL.value, tokenURL.value, clientID.value, secret, scope.value, CallbackPlaceholder))
  }

  /**
   * Reference definition of the reported error: the error of the first
   * field in `fields` that is not supplied, if any.
   */
  ghost function FirstMissing(bundle: map<string, string>, prefix: Option<string>,
                        fields: seq<(string, OAuth2WrapperErrors)>): (e: Option<OAuth2WrapperErrors>)
    ensures e.None? <==> forall i :: 0 <= i < |fields| ==> Supplied(bundle, prefix, fields[i].0)
    ensures e.Some? ==> exists i :: 0 <= i < |fields| && IsFirstMissing(bundle, prefix, fields, i) && e.value == fields[i].1
    decreases |fields|
  {
    if fields == [] then None
    else if !Supplied(bundle, prefix, fields[0].0) then
      assert IsFirstMissing(bundle, prefix, fields, 0);
      Some(fields[0].1)
    else
      var rest := FirstMissing(bundle, prefix, fields[1..]);
      if rest.Some? then
        var i :| 0 <= i < |fields| - 1 && IsFirstMissing(bundle, prefix, fields[1..], i) && rest.value == fields[1..][i].1;
        assert IsFirstMissing(bundle, prefix, fields, i + 1);
        rest
      else
        rest
  }

  /** Field `i` is not supplied and every field before it is. */
  ghost predicate IsFirstMissing(bundle: map<string, string>, prefix: Option<string>,
                                 fields: seq<(string, OAuth2WrapperErrors)>, i: int)
    requires 0 <= i < |fields|
  {
    && !Supplied(bundle, prefix, fields[i].0)
    && forall j :: 0 <= j < i ==> Supplied(bundle, prefix, fields[j].0)
  }

  /**
   * The loader fails exactly when some required field is missing, and the
   * error it reports is that of the first missing field in the order
   * AuthURL, TokenURL, ClientID, Scope.
   */
  lemma ReportsFirstMissingField(bundle: map<string, string>, prefix: Option<string>)
    ensures var r := NewOAuth2WrapperConfigFromBundle(bundle, prefix);
            var e := FirstMissing(bundle, prefix, RequiredFields);
            && (r.Failure? <==> e.Some?)
            && (r.Failure? ==> r.error == WrapperError(e.value))
  {
  }

  /** When exactly field `i` is missing, its own error is the one reported. */
  lemma SingleMissingFieldReported(bundle: map<string, string>, prefix: Option<string>, i: nat)
    requires i < |RequiredFields|
    requires !Supplied(bundle, prefix, RequiredFields[i].0)
    requires forall j :: 0 <= j < |RequiredFields| && j != i ==> Supplied(bundle, prefix, RequiredFields[j].0)
    ensures NewOAuth2WrapperConfigFromBundle(bundle, prefix) == Failure(WrapperError(RequiredFields[i].1))
  {
    ReportsFirstMissingField(bundle, prefix);
    var e := FirstMissing(bundle, prefix, RequiredFields);
    var k :| 0 <= k < |RequiredFields| && IsFirstMissing(bundle, prefix, RequiredFields, k) && e.value == RequiredFields[k].1;
    assert k == i;
  }

  /** Distinct setting names give distinct bundle keys. */
  lemma KeyInjective(prefix: Option<string>, a: string, b: string)
    requires a != b
    ensures Key(prefix, a) != Key(prefix, b)
  {
    var p := EffectivePrefix(prefix);
    assert (p + a)[|p|..] == a;
    assert (p + b)[|p|..] == b;
  }

  /** An empty string stored under a key has the same effect as no entry at all. */
  lemma EmptyValueIsAbsent(bundle: map<string, string>, prefix: Option<string>, k: string)
    requires k in bundle && bundle[k] == ""
    ensures NewOAuth2WrapperConfigFromBundle(bundle - {k}, prefix) == NewOAuth2WrapperConfigFromBundle(bundle, prefix)
  {
  }

  /**
   * The client secret never decides success or failure: whatever is stored
   * under its key (including nothing, via EmptyValueIsAbsent), the outcome
   * is the same except for the secret itself, which is "" when blank.
   */
  lemma ClientSecretIsOptional(bundle: map<string, string>, prefix: Option<string>, secret: string)
    ensures var r := NewOAuth2WrapperConfigFromBundle(bundle, prefix);
            var r' := NewOAuth2WrapperConfigFromBundle(bundle[Key(prefix, "ClientSecret") := secret], prefix);
            && (r'.Failure? <==> r.Failure?)
            && (r.Failure? ==> r'.error == r.error)
            && (r.Success? ==> r'.value == r.value.(ClientSecret := secret))
  {
    var names := ["AuthURL", "TokenURL", "ClientID", "Scope"];
    forall n | n in names ensures Key(prefix, n) != Key(prefix, "ClientSecret") {
      KeyInjective(prefix, n, "ClientSecret");
    }
  }
}
