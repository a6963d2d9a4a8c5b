/**
 * The launcher's settings: a table filled once at start-up from the process
 * environment, each listed key taking the environment's value when the
 * variable is set (even to "") and its built-in default otherwise, and read
 * by name afterwards, an unknown name reading as "".
 */
module Settings {

  const ListenHostKey := "GO_LAUNCH_A_SURVEY_LISTEN_HOST"
  const ListenPortKey := "GO_LAUNCH_A_SURVEY_LISTEN_PORT"
  const RunnerURLKey := "SURVEY_RUNNER_URL"
  const EncryptionKeyPathKey := "JWT_ENCRYPTION_KEY_PATH"
  const SigningKeyPathKey := "JWT_SIGNING_KEY_PATH"

  const DefaultListenHost := "0.0.0.0"
  const DefaultListenPort := "8000"
  const DefaultRunnerURL := "http://localhost:5000"
  const DefaultEncryptionKeyPath := "jwt-test-keys/sdc-user-authentication-encryption-sr-public-key.pem"
  const DefaultSigningKeyPath := "jwt-test-keys/sdc-user-authentication-signing-rrm-private-key.pem"

  /** The five keys are different strings, so no default shadows another. */
  lemma DistinctKeys()
    ensures ListenHostKey != ListenPortKey && ListenHostKey != RunnerURLKey
    ensures ListenHostKey != EncryptionKeyPathKey && ListenHostKey != SigningKeyPathKey
    ensures ListenPortKey != RunnerURLKey && ListenPortKey != EncryptionKeyPathKey
    ensures ListenPortKey != SigningKeyPathKey
    ensures RunnerURLKey != EncryptionKeyPathKey && RunnerURLKey != SigningKeyPathKey
    ensures EncryptionKeyPathKey != SigningKeyPathKey
  {
    assert ListenHostKey[26] == 'H' && ListenPortKey[26] == 'P';
    assert RunnerURLKey[0] == 'S' && EncryptionKeyPathKey[0] == 'J' && ListenHostKey[0] == 'G';
    assert EncryptionKeyPathKey[4] == 'E' && SigningKeyPathKey[4] == 'S';
  }

  /** What setSetting stores for key: the environment variable when it is
      set, whatever its value, else the default. */
  function Resolve(env: map<string, string>, key: string, defaultValue: string): (v: string)
    ensures key in env ==> v == env[key]
    ensures key !in env ==> v == defaultValue
  {
    if key in env then env[key] else defaultValue
  }

  /** The table after start-up: the five listed keys, set in the source's
      order, each resolved against the environment. */
  function InitialSettings(env: map<string, string>): (s: map<string, string>)
    ensures s.Keys == {ListenHostKey, ListenPortKey, RunnerURLKey, EncryptionKeyPathKey, SigningKeyPathKey}
    ensures |s.Keys| == 5
  {
    DistinctKeys();
    map[]
      [ListenHostKey := Resolve(env, ListenHostKey, DefaultListenHost)]
      [ListenPortKey := Resolve(env, ListenPortKey, DefaultListenPort)]
      [RunnerURLKey := Resolve(env, RunnerURLKey, DefaultRunnerURL)]
      [EncryptionKeyPathKey := Resolve(env, EncryptionKeyPathKey, DefaultEncryptionKeyPath)]
      [SigningKeyPathKey := Resolve(env, SigningKeyPathKey, DefaultSigningKeyPath)]
  }

  /** The settings table; env is the process environment seen at start-up. */
  class Settings {
    const env: map<string, string>
    var values: map<string, string>

    /** init: an empty table, then the five keys set in the source's order. */
    constructor(env: map<string, string>)
      ensures this.env == env
      ensures values == InitialSettings(env)
    {
      this.env := env;
      values := map[];
      new;
      SetSetting(ListenHostKey, DefaultListenHost);
      SetSetting(ListenPortKey, DefaultListenPort);
      SetSetting(RunnerURLKey, DefaultRunnerURL);
      SetSetting(EncryptionKeyPathKey, DefaultEncryptionKeyPath);
      SetSetting(SigningKeyPathKey, DefaultSigningKeyPath);
    }

    /** setSetting: key now maps to its resolved value; no other key changes. */
    method SetSetting(key: string, defaultValue: string)
      modifies this
      ensures values == old(values)[key := Resolve(env, key, defaultValue)]
    {
      if key in env {
        values := values[key := env[key]];
      } else {
        values := values[key := defaultValue];
      }
    }

    /** GetSetting: the stored value, or the zero value "" for a key the
        table does not hold. */
    function GetSetting(name: string): (v: string)
      reads this
      ensures name in values ==> v == values[name]
      ensures name !in values ==> v == ""
    {
      if name in values then values[name] else ""
    }
  }

  /** After start-up each listed key holds the environment's value when the
      variable is set and its built-in default otherwise. */
  lemma StartupValues(env: map<string, string>)
    ensures InitialSettings(env)[ListenHostKey] == Resolve(env, ListenHostKey, DefaultListenHost)
    ensures InitialSettings(env)[ListenPortKey] == Resolve(env, ListenPortKey, DefaultListenPort)
    ensures InitialSettings(env)[RunnerURLKey] == Resolve(env, RunnerURLKey, DefaultRunnerURL)
    ensures InitialSettings(env)[EncryptionKeyPathKey] == Resolve(env, EncryptionKeyPathKey, DefaultEncryptionKeyPath)
    ensures InitialSettings(env)[SigningKeyPathKey] == Resolve(env, SigningKeyPathKey, DefaultSigningKeyPath)
  {
    DistinctKeys();
  }

  /** A name that is none of the five keys is not in the table after start-up. */
  lemma NotASettingKey(env: map<string, string>, name: string)
    requires name != ListenHostKey && name != ListenPortKey && name != RunnerURLKey
    requires name != EncryptionKeyPathKey && name != SigningKeyPathKey
    ensures name !in InitialSettings(env)
  {
  }

  /** Any other name, such as SURVEY_REGISTER_URL, is not in the table after
      start-up, so GetSetting reads it as "". */
  lemma UnlistedKeysAbsent(env: map<string, string>)
    ensures "SURVEY_REGISTER_URL" !in InitialSettings(env)
    ensures "SURVEY_RUNNER_SCHEMA_URL" !in InitialSettings(env)
  {
    assert ListenHostKey[0] == ListenPortKey[0] == 'G';
    assert EncryptionKeyPathKey[0] == SigningKeyPathKey[0] == 'J';
    assert "SURVEY_REGISTER_URL"[0] == "SURVEY_RUNNER_SCHEMA_URL"[0] == 'S';
    assert "SURVEY_REGISTER_URL"[8] == 'E' && RunnerURLKey[8] == 'U';
    assert "SURVEY_RUNNER_SCHEMA_URL"[14] == 'S' && RunnerURLKey[14] == 'U';
    NotASettingKey(env, "SURVEY_REGISTER_URL");
    NotASettingKey(env, "SURVEY_RUNNER_SCHEMA_URL");
  }
}
