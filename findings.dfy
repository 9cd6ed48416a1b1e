/**
 * Two places where main.go does not do what it evidently means to, each
 * shown on a concrete input against the corrected definition.
 */
module Findings {
  import opened Strings
  import opened Platform
  import opened FilePath
  import opened Resolve
  import opened Setup
  import opened Wrappers

  /**
   * On Windows the separator is '\', which the XDG default path does not
   * contain: with XDG_CONFIG_HOME set, absPathify as written slices
   * inPath[1:-1] and panics during `init`.
   */
  lemma DefaultPathPanicsOnWindows(env: Env)
    requires Getenv(env, XdgConfigHome) != ""
    ensures !CanExpand(DefaultUserConfigPath(env), env, Windows)
  {
    assert '\\' !in XdgDefaultPath by {
      assert forall i :: 0 <= i < |XdgDefaultPath| ==> XdgDefaultPath[i] != '\\';
    }
    XdgDefaultPathShape();
  }

  /**
   * With the panic-free expansion `init` resolves that same path to
   * XDG_CONFIG_HOME followed by "/mobell", made absolute against the
   * working directory and cleaned, as it does elsewhere.
   */
  lemma DefaultPathResolvesOnWindows(env: Env, cwd: Option<string>)
    requires Getenv(env, XdgConfigHome) != ""
    ensures CorrectedInitConfigDir(env, Windows, cwd) == Finish(Getenv(env, XdgConfigHome) + "/mobell", '\\', cwd)
    ensures var xdg := Getenv(env, XdgConfigHome);
      IsAbs(xdg, '\\') ==> CorrectedInitConfigDir(env, Windows, cwd) == Clean(xdg + "/mobell", '\\')
  {
    assert '\\' !in XdgDefaultPath by {
      assert forall i :: 0 <= i < |XdgDefaultPath| ==> XdgDefaultPath[i] != '\\';
    }
    XdgDefaultPathShape();
    assert ExpandHome(XdgDefaultPath, env, Windows) == XdgDefaultPath;
    assert ExpandVarTotal(XdgDefaultPath, env, '\\') == Getenv(env, XdgConfigHome) + "/mobell";
  }

  /**
   * With an API key of the expected length (no note about it), a single
   * three-character user key is reported with the API key's length (30) as
   * written, and with its own length (3) once corrected.
   */
  lemma UserKeyNoteShowsApiKeyLength(apiKey: string)
    requires Utf8Len(apiKey) == ExpectedKeyLength
    ensures Utf8Len("abc") == 3
    ensures ApiKeyNotes(apiKey) == []
    ensures UserKeyNotes(["abc"], apiKey) == [UserKeyNote(1, 30)]
    ensures CorrectedUserKeyNotes(["abc"]) == [UserKeyNote(1, 3)]
  {
  }
}
