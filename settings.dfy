/**
 * The V2 agent's settings (config/settings.py): every field is read once
 * from the environment, with defaults, and three of them are required.
 * Construction either yields the settings or fails with the message of
 * the exception it raises.
 */
module Config {
  import opened Wrappers
  import opened Text

  /** The truthiness of `LOG_LEVEL` read with a default of `False`. */
  datatype EnvOrFalse = EnvValue(value: string) | NoValue

  datatype Settings = Settings(
    serverId: string,
    reverbUri: string,
    reverbChannel: string,
    agentVersion: string,
    monitoringInterval: int,
    retries: int,
    logLevel: string,
    /** A one-element tuple, because of the trailing comma of its assignment. */
    sendAllLogs: seq<EnvOrFalse>,
    hostname: string,
    platform: string,
    platformVersion: string)

  /** `os.getenv(key)`. */
  function Lookup(env: map<string, string>, key: string): Option<string> {
    if key in env then Some(env[key]) else None
  }

  /** `os.getenv(key, default)` for a string default. */
  function LookupOr(env: map<string, string>, key: string, default: string): string {
    if key in env then env[key] else default
  }

  /** Python's truthiness of an optional string: present and non-empty. */
  predicate Given(v: Option<string>) {
    v.Some? && v.value != ""
  }

  /** A sign followed by at least one digit, or digits alone. */
  predicate IntLiteral(t: string) {
    || (|t| > 1 && (t[0] == '-' || t[0] == '+') && AllDigits(t[1..]))
    || (t != [] && AllDigits(t))
  }

  /**
   * `int(s)` on a string: surrounding white space is ignored, then an
   * optional sign and decimal digits; anything else is refused.
   */
  function ParseInt(s: string): (r: Option<int>)
    ensures r.Some? <==> IntLiteral(Strip(s))
  {
    var t := Strip(s);
    if |t| > 1 && (t[0] == '-' || t[0] == '+') && AllDigits(t[1..]) then
      Some(if t[0] == '-' then -(DigitsValue(t[1..]) as int) else DigitsValue(t[1..]))
    else if t != [] && AllDigits(t) then Some(DigitsValue(t))
    else None
  }

  function DigitChar(d: nat): char
    requires d < 10
  {
    ('0' as int + d) as char
  }

  /** The decimal digits of a natural number. */
  function ShowNat(n: nat): (s: string)
    ensures s != [] && AllDigits(s)
  {
    if n < 10 then [DigitChar(n)] else ShowNat(n / 10) + [DigitChar(n % 10)]
  }

  /** `str(i)`. */
  function ShowInt(i: int): (s: string)
    ensures s != [] && !IsSpace(s[0]) && !IsSpace(s[|s| - 1])
  {
    if i < 0 then "-" + ShowNat(-i) else ShowNat(i)
  }

  lemma {:induction false} ShowNatValue(n: nat)
    ensures DigitsValue(ShowNat(n)) == n
  {
    if n >= 10 {
      ShowNatValue(n / 10);
      var s := ShowNat(n);
      assert s[..|s| - 1] == ShowNat(n / 10);
    }
  }

  /** A string without white space at either end is its own strip. */
  lemma StripUnspaced(s: string)
    requires s != [] && !IsSpace(s[0]) && !IsSpace(s[|s| - 1])
    ensures Strip(s) == s
  {
  }

  /** `int(str(i)) == i`: parsing reads back every integer as written. */
  lemma ParseShowRoundTrip(i: int)
    ensures ParseInt(ShowInt(i)) == Some(i)
  {
    if i < 0 {
      NegativeRoundTrip(-i);
    } else {
      PositiveRoundTrip(i);
    }
  }

  lemma PositiveRoundTrip(n: nat)
    ensures ParseInt(ShowInt(n)) == Some(n)
  {
    ParseDigits(ShowNat(n));
    ShowNatValue(n);
  }

  lemma NegativeRoundTrip(n: nat)
    requires n > 0
    ensures ParseInt(ShowInt(-(n as int))) == Some(-(n as int))
  {
    var t := ShowInt(-(n as int));
    assert t[1..] == ShowNat(n);
    ParseNegative(t);
    ShowNatValue(n);
  }

  lemma ParseNegative(t: string)
    requires |t| > 1 && t[0] == '-' && AllDigits(t[1..])
    ensures ParseInt(t) == Some(-(DigitsValue(t[1..]) as int))
  {
    assert IsDigit(t[1..][|t| - 2]);
    StripUnspaced(t);
  }

  lemma ParseDigits(d: string)
    requires d != [] && AllDigits(d)
    ensures ParseInt(d) == Some(DigitsValue(d))
  {
    assert IsDigit(d[0]) && IsDigit(d[|d| - 1]);
    StripUnspaced(d);
  }

  /** `ValueError` of a refused integer. */
  function BadInt(s: string): string {
    "invalid literal for int() with base 10: '" + s + "'"
  }

  /**
   * `Settings()`: the two integers are parsed while the fields are read,
   * so a bad one fails first; then `_validate_settings` checks the three
   * required values in order.
   */
  function LoadSettings(env: map<string, string>, hostname: string, platform: string, platformVersion: string)
    : (r: Result<Settings, string>)
    ensures r.Ok? <==>
      && ParseInt(LookupOr(env, "MONITORING_INTERVAL", "20")).Some?
      && ParseInt(LookupOr(env, "RETRIES", "3")).Some?
      && Given(Lookup(env, "SERVER_ID")) && Given(Lookup(env, "REVERB_URI")) && Given(Lookup(env, "REVERB_CHANNEL"))
    ensures r.Ok? ==>
      && r.value.serverId == env["SERVER_ID"] && r.value.reverbUri == env["REVERB_URI"] && r.value.reverbChannel == env["REVERB_CHANNEL"]
      && r.value.agentVersion == LookupOr(env, "AGENT_VERSION", "2.0.0")
      && r.value.logLevel == LookupOr(env, "LOG_LEVEL", "INFO")
      && Some(r.value.monitoringInterval) == ParseInt(LookupOr(env, "MONITORING_INTERVAL", "20"))
      && Some(r.value.retries) == ParseInt(LookupOr(env, "RETRIES", "3"))
      && r.value.hostname == hostname && r.value.platform == platform && r.value.platformVersion == platformVersion
  {
    var interval := ParseInt(LookupOr(env, "MONITORING_INTERVAL", "20"));
    var retries := ParseInt(LookupOr(env, "RETRIES", "3"));
    if interval.None? then Err(BadInt(LookupOr(env, "MONITORING_INTERVAL", "20")))
    else if retries.None? then Err(BadInt(LookupOr(env, "RETRIES", "3")))
    else if !Given(Lookup(env, "SERVER_ID")) then Err("SERVER_ID environment variable is required")
    else if !Given(Lookup(env, "REVERB_URI")) then Err("REVERB_URI environment variable is required")
    else if !Given(Lookup(env, "REVERB_CHANNEL")) then Err("REVERB_CHANNEL environment variable is required")
    else
      var sendAllLogs := if "LOG_LEVEL" in env then EnvValue(env["LOG_LEVEL"]) else NoValue;
      Ok(Settings(
        env["SERVER_ID"], env["REVERB_URI"], env["REVERB_CHANNEL"],
        LookupOr(env, "AGENT_VERSION", "2.0.0"),
        interval.value, retries.value,
        LookupOr(env, "LOG_LEVEL", "INFO"),
        [sendAllLogs],
        hostname, platform, platformVersion))
  }

  /** The validation order: with valid integers, the first missing or empty value among `SERVER_ID`, `REVERB_URI`, `REVERB_CHANNEL` is the one reported. */
  lemma ValidationOrder(env: map<string, string>, hostname: string, platform: string, platformVersion: string)
    requires ParseInt(LookupOr(env, "MONITORING_INTERVAL", "20")).Some? && ParseInt(LookupOr(env, "RETRIES", "3")).Some?
    ensures !Given(Lookup(env, "SERVER_ID")) ==>
      LoadSettings(env, hostname, platform, platformVersion) == Err("SERVER_ID environment variable is required")
    ensures Given(Lookup(env, "SERVER_ID")) && !Given(Lookup(env, "REVERB_URI")) ==>
      LoadSettings(env, hostname, platform, platformVersion) == Err("REVERB_URI environment variable is required")
    ensures Given(Lookup(env, "SERVER_ID")) && Given(Lookup(env, "REVERB_URI")) && !Given(Lookup(env, "REVERB_CHANNEL")) ==>
      LoadSettings(env, hostname, platform, platformVersion) == Err("REVERB_CHANNEL environment variable is required")
  {
  }

  /** The default integer literals read as 20 and 3. */
  lemma DefaultLiterals()
    ensures ParseInt("20") == Some(20) && ParseInt("3") == Some(3)
  {
    ParseShowRoundTrip(20);
    ParseShowRoundTrip(3);
    assert ShowInt(20) == "20";
    assert ShowInt(3) == "3";
  }

  /** An environment with only the required values gets the defaults: version 2.0.0, interval 20, three retries, level INFO. */
  lemma Defaults(serverId: string, uri: string, channel: string, hostname: string, platform: string, platformVersion: string)
    requires serverId != "" && uri != "" && channel != ""
    ensures var env := map["SERVER_ID" := serverId, "REVERB_URI" := uri, "REVERB_CHANNEL" := channel];
      var r := LoadSettings(env, hostname, platform, platformVersion);
      && r.Ok?
      && r.value.agentVersion == "2.0.0" && r.value.monitoringInterval == 20 && r.value.retries == 3 && r.value.logLevel == "INFO"
  {
    var env := map["SERVER_ID" := serverId, "REVERB_URI" := uri, "REVERB_CHANNEL" := channel];
    assert env.Keys == {"SERVER_ID", "REVERB_URI", "REVERB_CHANNEL"};
    assert "MONITORING_INTERVAL" !in env && "RETRIES" !in env && "AGENT_VERSION" !in env && "LOG_LEVEL" !in env;
    DefaultLiterals();
    assert Given(Lookup(env, "SERVER_ID")) && Given(Lookup(env, "REVERB_URI")) && Given(Lookup(env, "REVERB_CHANNEL"));
  }

  /** Python's truthiness of `SEND_ALL_LOGS`: a tuple is true when it is not empty. */
  predicate SendAllLogs(s: Settings) {
    s.sendAllLogs != []
  }

  /** `SEND_ALL_LOGS` is true whatever the environment, even with no `LOG_LEVEL` at all. */
  lemma SendAllLogsAlwaysOn(env: map<string, string>, hostname: string, platform: string, platformVersion: string)
    requires LoadSettings(env, hostname, platform, platformVersion).Ok?
    ensures SendAllLogs(LoadSettings(env, hostname, platform, platformVersion).value)
    ensures LoadSettings(env, hostname, platform, platformVersion).value.sendAllLogs
      == [if "LOG_LEVEL" in env then EnvValue(env["LOG_LEVEL"]) else NoValue]
  {
  }
}
