/**
 * Loading and validating the configuration (mustLoadConfig). The search
 * for config.json and its JSON decoding are done by a library; what they
 * deliver is passed in as a ReadResult. The settings are a map from the
 * configuration keys to decoded JSON values.
 */
module Config {
  import opened Wrappers

  /** A decoded JSON value, as far as validation distinguishes it. */
  datatype Value = Null | Text(text: string) | TextList(items: seq<string>) | OtherValue

  type Settings = map<string, Value>

  const UserKey := "pushover_user_key"
  const ApiKey := "pushover_api_key"

  /** The keys mustLoadConfig insists on, in the order it checks them. */
  const RequiredKeys: seq<string> := [UserKey, ApiKey]

  /** viper.Get(key) == nil: the key is absent or holds JSON null. */
  predicate IsNil(settings: Settings, key: string)
  {
    key !in settings || settings[key] == Null
  }

  /** The keys of `keys` whose value is nil, in the order of `keys`. */
  function Missing(settings: Settings, keys: seq<string>): seq<string>
  {
    if keys == [] then []
    else
      var last := keys[|keys| - 1];
      Missing(settings, keys[..|keys| - 1]) + (if IsNil(settings, last) then [last] else [])
  }

  /** The reported keys are exactly the required keys whose value is nil. */
  lemma {:induction false} MissingExactly(settings: Settings, keys: seq<string>, k: string)
    ensures k in Missing(settings, keys) <==> k in keys && IsNil(settings, k)
  {
    if keys != [] {
      var init := keys[..|keys| - 1];
      MissingExactly(settings, init, k);
      assert keys == init + [keys[|keys| - 1]];
    }
  }

  /** Reporting follows list order: the keys of a concatenation are reported part by part. */
  lemma {:induction false} MissingAppend(settings: Settings, a: seq<string>, b: seq<string>)
    ensures Missing(settings, a + b) == Missing(settings, a) + Missing(settings, b)
    decreases |b|
  {
    if b != [] {
      var init := b[..|b| - 1];
      assert (a + b)[..|a + b| - 1] == a + init;
      assert (a + b)[|a + b| - 1] == b[|b| - 1];
      MissingAppend(settings, a, init);
    } else {
      assert a + b == a;
    }
  }

  /** Nothing is reported exactly when every key has a value. */
  lemma {:induction false} MissingNone(settings: Settings, keys: seq<string>)
    ensures Missing(settings, keys) == [] <==> forall i :: 0 <= i < |keys| ==> !IsNil(settings, keys[i])
  {
    if keys != [] {
      var init := keys[..|keys| - 1];
      MissingNone(settings, init);
      assert forall i :: 0 <= i < |init| ==> init[i] == keys[i];
    }
  }

  /** The two required keys, as reported for each combination of what the file holds. */
  lemma MissingRequired(settings: Settings)
    ensures Missing(settings, RequiredKeys) ==
      (if IsNil(settings, UserKey) then [UserKey] else []) + (if IsNil(settings, ApiKey) then [ApiKey] else [])
  {
    assert RequiredKeys[..1] == [UserKey];
    assert Missing(settings, [UserKey]) == if IsNil(settings, UserKey) then [UserKey] else [] by {
      assert [UserKey][..0] == [];
    }
  }

  /**
   * The loop of mustLoadConfig: every key of `required` whose value is nil
   * is reported, in order, without stopping at the first, and the flag is
   * raised exactly when something was reported.
   */
  method CheckRequired(settings: Settings, required: seq<string>) returns (reported: seq<string>, missingKeys: bool)
    ensures reported == Missing(settings, required)
    ensures missingKeys <==> reported != []
  {
    reported := [];
    missingKeys := false;
    for i := 0 to |required|
      invariant reported == Missing(settings, required[..i])
      invariant missingKeys <==> reported != []
    {
      assert required[..i + 1][..i] == required[..i];
      if IsNil(settings, required[i]) {
        reported := reported + [required[i]];
        missingKeys := true;
      }
    }
    assert required[..|required|] == required;
  }

  /** What viper.ReadInConfig delivers. */
  datatype ReadResult = FileNotFound | Unreadable(reason: string) | Parsed(settings: Settings)

  /** Why mustLoadConfig exits with status 1; `hint` is the default directory it names. */
  datatype LoadError =
    | ConfigNotFound(hint: string)
    | ConfigUnreadable(reason: string)
    | ConfigInvalid(missing: seq<string>, hint: string)

  /**
   * mustLoadConfig: a missing or unreadable file is fatal, and so is a
   * file in which any required key is nil, the error then naming every
   * such key; otherwise loading passes.
   */
  method MustLoadConfig(read: ReadResult, defaultPath: string) returns (r: Outcome<LoadError>)
    ensures read == FileNotFound ==> r == Fail(ConfigNotFound(defaultPath))
    ensures read.Unreadable? ==> r == Fail(ConfigUnreadable(read.reason))
    ensures read.Parsed? ==>
      var missing := Missing(read.settings, RequiredKeys);
      r == if missing == [] then Pass else Fail(ConfigInvalid(missing, defaultPath))
  {
    match read
    case FileNotFound =>
      r := Fail(ConfigNotFound(defaultPath));
    case Unreadable(reason) =>
      r := Fail(ConfigUnreadable(reason));
    case Parsed(settings) =>
      var reported, missingKeys := CheckRequired(settings, RequiredKeys);
      r := if missingKeys then Fail(ConfigInvalid(reported, defaultPath)) else Pass;
  }
}
