/**
 * The body of the `init` command, without its terminal and file I/O:
 * where the configuration directory is, how the entered recipient keys are
 * split, what document is written, and which key-length notes are shown
 * afterwards.
 */
module Setup {
  import opened Wrappers
  import opened Strings
  import opened FilePath
  import opened Platform
  import opened Resolve
  import opened Config

  /** The length the notes compare every key against (Go's byte length). */
  const ExpectedKeyLength := 30

  /** A note printed after the configuration is saved. */
  datatype Note =
    | ApiKeyNote(length: nat)               // the API key has `length` bytes
    | UserKeyNote(number: nat, length: nat) // user key #number; `length` is what the note prints

  /** The note about the API key: one exactly when its length is not the expected one. */
  function ApiKeyNotes(apiKey: string): (notes: seq<Note>)
    ensures notes == [] <==> Utf8Len(apiKey) == ExpectedKeyLength
    ensures notes != [] ==> notes == [ApiKeyNote(Utf8Len(apiKey))]
  {
    if Utf8Len(apiKey) != ExpectedKeyLength then [ApiKeyNote(Utf8Len(apiKey))] else []
  }

  /**
   * The notes about the user keys as main.go prints them: key #i+1 gets a
   * note when its own length is not the expected one, and the note shows
   * the length of the API key.
   */
  function UserKeyNotes(users: seq<string>, apiKey: string): seq<Note>
  {
    if users == [] then []
    else
      var last := users[|users| - 1];
      UserKeyNotes(users[..|users| - 1], apiKey)
        + (if Utf8Len(last) != ExpectedKeyLength then [UserKeyNote(|users|, Utf8Len(apiKey))] else [])
  }

  /** The user-key notes with each note showing the length of its own key. */
  function CorrectedUserKeyNotes(users: seq<string>): seq<Note>
  {
    if users == [] then []
    else
      var last := users[|users| - 1];
      CorrectedUserKeyNotes(users[..|users| - 1])
        + (if Utf8Len(last) != ExpectedKeyLength then [UserKeyNote(|users|, Utf8Len(last))] else [])
  }

  /** Both versions emit only user-key notes, numbered from 1 to |users| in increasing order. */
  lemma {:induction false} UserKeyNotesOrdered(users: seq<string>, apiKey: string)
    ensures var notes := UserKeyNotes(users, apiKey);
      && |notes| <= |users|
      && (forall i :: 0 <= i < |notes| ==> notes[i].UserKeyNote? && 1 <= notes[i].number <= |users|)
      && (forall i, j :: 0 <= i < j < |notes| ==> notes[i].number < notes[j].number)
    ensures var notes := CorrectedUserKeyNotes(users);
      && |notes| <= |users|
      && (forall i :: 0 <= i < |notes| ==> notes[i].UserKeyNote? && 1 <= notes[i].number <= |users|)
      && (forall i, j :: 0 <= i < j < |notes| ==> notes[i].number < notes[j].number)
  {
    if users != [] {
      UserKeyNotesOrdered(users[..|users| - 1], apiKey);
    }
  }

  /**
   * Key #n (counting from 1) gets a note exactly when its length is not the
   * expected one, and the note shows the length of the API key.
   */
  lemma {:induction false} UserKeyNotesExactly(users: seq<string>, apiKey: string, n: nat, length: nat)
    ensures UserKeyNote(n, length) in UserKeyNotes(users, apiKey) <==>
      1 <= n <= |users| && Utf8Len(users[n - 1]) != ExpectedKeyLength && length == Utf8Len(apiKey)
  {
    if users != [] {
      var init := users[..|users| - 1];
      UserKeyNotesExactly(init, apiKey, n, length);
      UserKeyNotesOrdered(init, apiKey);
      if 1 <= n < |users| {
        assert init[n - 1] == users[n - 1];
      }
    }
  }

  /** With the correction, the note about key #n shows the length of key #n. */
  lemma {:induction false} CorrectedUserKeyNotesExactly(users: seq<string>, n: nat, length: nat)
    ensures UserKeyNote(n, length) in CorrectedUserKeyNotes(users) <==>
      1 <= n <= |users| && Utf8Len(users[n - 1]) != ExpectedKeyLength && length == Utf8Len(users[n - 1])
  {
    if users != [] {
      var init := users[..|users| - 1];
      CorrectedUserKeyNotesExactly(init, n, length);
      UserKeyNotesOrdered(init, "");
      if 1 <= n < |users| {
        assert init[n - 1] == users[n - 1];
      }
    }
  }

  /**
   * The input handling of `init`: the recipient line is split on commas,
   * then the API-key note (if any) is followed by one note per user key of
   * unexpected length, in key order.
   */
  method ProcessSetupInput(apiKey: string, userKeys: string) returns (users: seq<string>, notes: seq<Note>)
    ensures users == Split(userKeys, ',')
    ensures notes == ApiKeyNotes(apiKey) + UserKeyNotes(users, apiKey)
  {
    users := Split(userKeys, ',');
    notes := [];
    if Utf8Len(apiKey) != ExpectedKeyLength {
      notes := notes + [ApiKeyNote(Utf8Len(apiKey))];
    }
    var i := 0;
    while i < |users|
      invariant 0 <= i <= |users|
      invariant notes == ApiKeyNotes(apiKey) + UserKeyNotes(users[..i], apiKey)
    {
      assert users[..i + 1][..i] == users[..i];
      if Utf8Len(users[i]) != ExpectedKeyLength {
        notes := notes + [UserKeyNote(i + 1, Utf8Len(apiKey))];
      }
      i := i + 1;
    }
    assert users[..|users|] == users;
  }

  /**
   * What `init` gets from its input: one recipient per comma plus one, the
   * recipients joining back to the line typed, and exactly the expected
   * notes.
   */
  lemma SetupInputFacts(apiKey: string, userKeys: string, n: nat, length: nat)
    ensures |Split(userKeys, ',')| == multiset(userKeys)[','] + 1
    ensures Join(Split(userKeys, ','), ',') == userKeys
    ensures ApiKeyNote(length) in ApiKeyNotes(apiKey) + UserKeyNotes(Split(userKeys, ','), apiKey) <==>
      Utf8Len(apiKey) != ExpectedKeyLength && length == Utf8Len(apiKey)
    ensures var users := Split(userKeys, ',');
      UserKeyNote(n, length) in ApiKeyNotes(apiKey) + UserKeyNotes(users, apiKey) <==>
        1 <= n <= |users| && Utf8Len(users[n - 1]) != ExpectedKeyLength && length == Utf8Len(apiKey)
  {
    var users := Split(userKeys, ',');
    assert |users| == multiset(userKeys)[','] + 1 && Join(users, ',') == userKeys by {
      SplitCount(userKeys, ',');
      JoinSplit(userKeys, ',');
    }
    var api, user := ApiKeyNotes(apiKey), UserKeyNotes(users, apiKey);
    assert ApiKeyNote(length) in api + user <==> ApiKeyNote(length) in api by {
      UserKeyNotesOrdered(users, apiKey);
      assert ApiKeyNote(length) !in user;
    }
    assert UserKeyNote(n, length) in api + user <==> UserKeyNote(n, length) in user;
    UserKeyNotesExactly(users, apiKey, n, length);
  }

  /** The document `init` writes to config.json. */
  function ConfigDocument(apiKey: string, users: seq<string>): Settings
  {
    map[ApiKey := Text(apiKey), UserKey := TextList(users)]
  }

  /** A configuration written by `init` passes mustLoadConfig's validation, whatever was typed. */
  lemma ConfigDocumentValid(apiKey: string, users: seq<string>)
    ensures Missing(ConfigDocument(apiKey, users), RequiredKeys) == []
  {
    MissingRequired(ConfigDocument(apiKey, users));
  }

  /**
   * The directory `init` writes to: the default per-user directory resolved
   * by absPathify as written, which panics unless the default can be expanded.
   */
  function InitConfigDir(env: Env, os: Os, cwd: Option<string>): string
    requires CanExpand(DefaultUserConfigPath(env), env, os)
  {
    AbsPathify(DefaultUserConfigPath(env), env, os, cwd)
  }

  /** The directory `init` writes to with the panic-free expansion. */
  function CorrectedInitConfigDir(env: Env, os: Os, cwd: Option<string>): string
  {
    AbsPathifyTotal(DefaultUserConfigPath(env), env, os, cwd)
  }

  /** The file `init` creates in that directory. */
  function ConfigFilePath(dir: string): (path: string)
    ensures HasPrefix(path, dir) && path[|dir|..] == "/config.json"
  {
    dir + "/config.json"
  }

  /** The file is the entry config.json inside the directory: its path elements are the directory's, then config.json. */
  lemma ConfigFilePathEntries(dir: string)
    ensures Split(ConfigFilePath(dir), '/') == Split(dir, '/') + ["config.json"]
  {
    assert ConfigFilePath(dir) == dir + ['/'] + "config.json";
    assert '/' !in "config.json";
    SplitAppend(dir, "config.json", '/');
  }

  /**
   * Wherever `init` does not panic, the directory it uses is "" (could not
   * be resolved) or absolute and cleaned, and the corrected version agrees.
   * Outside Windows it never panics and writes into XDG_CONFIG_HOME/mobell
   * when that variable holds an absolute path, into HOME/.config/mobell when
   * it is empty and HOME is absolute, and into /.config/mobell when both
   * are empty.
   */
  lemma InitConfigDirResolves(env: Env, os: Os, cwd: Option<string>)
    requires WorkingDir(cwd, Sep(os))
    ensures os == Unix ==> CanExpand(DefaultUserConfigPath(env), env, os)
    ensures CanExpand(DefaultUserConfigPath(env), env, os) ==>
      var dir := InitConfigDir(env, os, cwd);
      && (dir == "" || (IsAbs(dir, Sep(os)) && Clean(dir, Sep(os)) == dir))
      && CorrectedInitConfigDir(env, os, cwd) == dir
    ensures var xdg := Getenv(env, XdgConfigHome);
      os == Unix && xdg != "" && IsAbs(xdg, '/') ==> InitConfigDir(env, os, cwd) == Clean(xdg + "/mobell", '/')
    ensures var home := Getenv(env, "HOME");
      os == Unix && Getenv(env, XdgConfigHome) == "" && IsAbs(home, '/') ==>
        InitConfigDir(env, os, cwd) == Clean(home + "/.config/mobell", '/')
    ensures os == Unix && Getenv(env, XdgConfigHome) == "" && Getenv(env, "HOME") == "" ==>
      InitConfigDir(env, os, cwd) == Clean("/.config/mobell", '/')
  {
    if os == Unix {
      DefaultUserConfigPathResolves(env, cwd);
    }
    if CanExpand(DefaultUserConfigPath(env), env, os) {
      AbsPathifyResult(DefaultUserConfigPath(env), env, os, cwd);
      AbsPathifyTotalAgrees(DefaultUserConfigPath(env), env, os, cwd);
    }
  }

  /**
   * Outside Windows the directory `init` writes to is what absPathify
   * makes of the default search entry, the one listed right after the
   * override. How the configuration library itself resolves that entry
   * is not part of this model.
   */
  lemma InitConfigDirIsSearched(env: Env, cwd: Option<string>)
    requires WorkingDir(cwd, '/')
    ensures var dirs := SearchPaths(env);
      CanExpand(dirs[|dirs| - 2], env, Unix) && CanExpand(DefaultUserConfigPath(env), env, Unix)
    ensures var dirs := SearchPaths(env);
      AbsPathify(dirs[|dirs| - 2], env, Unix, cwd) == InitConfigDir(env, Unix, cwd)
  {
    DefaultUserConfigPathResolves(env, cwd);
  }
}
