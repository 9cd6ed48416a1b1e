/**
 * Resolution of configuration paths: absPathify, which expands a leading
 * `$HOME` or `$VAR`, makes the path absolute against the working directory
 * and cleans it; the default per-user configuration directory chosen at
 * start-up; and the order in which the configuration directories are
 * searched.
 */
module Resolve {
  import opened Wrappers
  import opened Strings
  import opened FilePath
  import opened Platform

  /** The first rewrite of absPathify: a leading "$HOME" becomes the user's home directory. */
  function ExpandHome(p: string, env: Env, os: Os): string
  {
    if HasPrefix(p, "$HOME") then UserHomeDir(env, os) + p[5..] else p
  }

  /**
   * absPathify slices up to the first separator of a `$`-prefixed path and
   * panics when there is none; this is the condition under which it does not.
   */
  predicate CanExpand(p: string, env: Env, os: Os)
  {
    var q := ExpandHome(p, env, os);
    HasPrefix(q, "$") ==> Sep(os) in q
  }

  /** The second rewrite, as written: a leading "$NAME" up to the first separator becomes NAME's value. */
  function ExpandVar(q: string, env: Env, sep: Separator): string
    requires HasPrefix(q, "$") ==> sep in q
  {
    if HasPrefix(q, "$") then
      var end := Index(q, sep);
      Getenv(env, q[1..end]) + q[end..]
    else q
  }

  /**
   * The second rewrite with the missing case filled in. Up to the first
   * system separator, as written; without one the name ends at the first
   * '/', which `init` writes into the default path on every system; with
   * neither, the whole rest names the variable.
   */
  function ExpandVarTotal(q: string, env: Env, sep: Separator): string
  {
    if HasPrefix(q, "$") then
      var end := Index(q, sep);
      if end >= 0 then Getenv(env, q[1..end]) + q[end..]
      else
        var slash := Index(q, '/');
        if slash >= 0 then Getenv(env, q[1..slash]) + q[slash..] else Getenv(env, q[1..])
    else q
  }

  /** The tail of absPathify: an absolute path is cleaned, a relative one is made absolute first; "" when that fails. */
  function Finish(q: string, sep: Separator, cwd: Option<string>): string
  {
    if IsAbs(q, sep) then Clean(q, sep)
    else match Abs(q, sep, cwd)
      case None => ""
      case Some(a) => Clean(a, sep)
  }

  /** absPathify as written, for the environment `env`, the system `os` and the working directory `cwd`. */
  function AbsPathify(p: string, env: Env, os: Os, cwd: Option<string>): string
    requires CanExpand(p, env, os)
  {
    Finish(ExpandVar(ExpandHome(p, env, os), env, Sep(os)), Sep(os), cwd)
  }

  /** absPathify with the variable expansion that cannot panic. */
  function AbsPathifyTotal(p: string, env: Env, os: Os, cwd: Option<string>): string
  {
    Finish(ExpandVarTotal(ExpandHome(p, env, os), env, Sep(os)), Sep(os), cwd)
  }

  /**
   * What absPathify can return: "" exactly when the expanded path is relative
   * and there is no working directory, otherwise an absolute, cleaned path.
   */
  lemma FinishResult(q: string, sep: Separator, cwd: Option<string>)
    requires WorkingDir(cwd, sep)
    ensures Finish(q, sep, cwd) == "" <==> !IsAbs(q, sep) && cwd.None?
    ensures Finish(q, sep, cwd) != "" ==>
      IsAbs(Finish(q, sep, cwd), sep) && Clean(Finish(q, sep, cwd), sep) == Finish(q, sep, cwd)
  {
    AbsResult(q, sep, cwd);
    if IsAbs(q, sep) {
      CleanIdempotent(q, sep);
    } else if cwd.Some? {
      CleanIdempotent(Abs(q, sep, cwd).value, sep);
    }
  }

  /** A relative expanded path is joined onto the working directory (the second Clean changes nothing). */
  lemma FinishRelative(q: string, sep: Separator, wd: string)
    requires IsAbs(wd, sep) && !IsAbs(q, sep)
    ensures Finish(q, sep, Some(wd)) == Clean(wd + [sep] + q, sep)
  {
    CleanIdempotent(wd + [sep] + q, sep);
  }

  /** The result is either "" or an absolute, cleaned path. */
  lemma AbsPathifyResult(p: string, env: Env, os: Os, cwd: Option<string>)
    requires CanExpand(p, env, os) && WorkingDir(cwd, Sep(os))
    ensures var r := AbsPathify(p, env, os, cwd);
      r == "" || (IsAbs(r, Sep(os)) && Clean(r, Sep(os)) == r)
  {
    FinishResult(ExpandVar(ExpandHome(p, env, os), env, Sep(os)), Sep(os), cwd);
  }

  /** An absolute input is only cleaned: neither the environment nor the working directory is consulted. */
  lemma AbsPathifyAbsolute(p: string, env: Env, os: Os, cwd: Option<string>)
    requires IsAbs(p, Sep(os))
    ensures CanExpand(p, env, os)
    ensures AbsPathify(p, env, os, cwd) == Clean(p, Sep(os))
  {
    assert p[0] != '$';
  }

  /** A relative input without a leading '$' is cleaned relative to the working directory, or gives "" without one. */
  lemma AbsPathifyRelative(p: string, env: Env, os: Os, cwd: Option<string>)
    requires !IsAbs(p, Sep(os)) && !HasPrefix(p, "$")
    requires WorkingDir(cwd, Sep(os))
    ensures CanExpand(p, env, os)
    ensures cwd.None? ==> AbsPathify(p, env, os, cwd) == ""
    ensures cwd.Some? ==> AbsPathify(p, env, os, cwd) == Clean(cwd.value + [Sep(os)] + p, Sep(os))
  {
    assert !HasPrefix(p, "$HOME");
    if cwd.Some? {
      FinishRelative(p, Sep(os), cwd.value);
    }
  }

  /**
   * A leading "$HOME" is replaced by the home directory, whatever it holds,
   * and nothing after the prefix changes; unless the substituted text itself
   * starts with '$', the result is that text made absolute and cleaned. With
   * an absolute home it is the cleaned concatenation, whatever the working
   * directory.
   */
  lemma AbsPathifyHome(p: string, env: Env, os: Os, cwd: Option<string>)
    requires HasPrefix(p, "$HOME") && !HasPrefix(UserHomeDir(env, os) + p[5..], "$")
    ensures CanExpand(p, env, os)
    ensures AbsPathify(p, env, os, cwd) == Finish(UserHomeDir(env, os) + p[5..], Sep(os), cwd)
    ensures IsAbs(UserHomeDir(env, os), Sep(os)) ==>
      AbsPathify(p, env, os, cwd) == Clean(UserHomeDir(env, os) + p[5..], Sep(os))
  {
    var q := UserHomeDir(env, os) + p[5..];
    if IsAbs(UserHomeDir(env, os), Sep(os)) {
      assert q[0] == Sep(os);
    }
  }

  /**
   * Any other leading "$NAME" is replaced by NAME's value, NAME running up to
   * the first separator; the suffix from that separator on is kept. An
   * absolute or empty value (an unset variable reads as empty) gives the
   * cleaned concatenation; a relative value is taken relative to the
   * working directory.
   */
  lemma AbsPathifyVar(p: string, env: Env, os: Os, cwd: Option<string>)
    requires HasPrefix(p, "$") && !HasPrefix(p, "$HOME") && Sep(os) in p
    requires WorkingDir(cwd, Sep(os))
    ensures CanExpand(p, env, os)
    ensures var end := Index(p, Sep(os));
      var value := Getenv(env, p[1..end]);
      && (value == "" || IsAbs(value, Sep(os)) ==>
            AbsPathify(p, env, os, cwd) == Clean(value + p[end..], Sep(os)))
      && (value != "" && !IsAbs(value, Sep(os)) && cwd.Some? ==>
            AbsPathify(p, env, os, cwd) == Clean(cwd.value + [Sep(os)] + value + p[end..], Sep(os)))
      && (value != "" && !IsAbs(value, Sep(os)) && cwd.None? ==>
            AbsPathify(p, env, os, cwd) == "")
  {
    var sep := Sep(os);
    var end := Index(p, sep);
    var value := Getenv(env, p[1..end]);
    var q := value + p[end..];
    assert AbsPathify(p, env, os, cwd) == Finish(q, sep, cwd) by {
      assert ExpandHome(p, env, os) == p;
      assert ExpandVar(p, env, sep) == q;
    }
    if value == "" {
      assert IsAbs(q, sep) by {
        assert q == p[end..] && q[0] == sep;
      }
    } else if IsAbs(value, sep) {
      assert IsAbs(q, sep);
    } else if cwd.Some? {
      FinishRelative(q, sep, cwd.value);
      assert cwd.value + [sep] + value + p[end..] == cwd.value + [sep] + q;
    }
  }

  /** absPathify leaves its own non-empty results alone, in any environment and working directory. */
  lemma AbsPathifyIdempotent(p: string, env: Env, os: Os, cwd: Option<string>, env': Env, cwd': Option<string>)
    requires CanExpand(p, env, os) && WorkingDir(cwd, Sep(os))
    requires AbsPathify(p, env, os, cwd) != ""
    ensures CanExpand(AbsPathify(p, env, os, cwd), env', os)
    ensures AbsPathify(AbsPathify(p, env, os, cwd), env', os, cwd') == AbsPathify(p, env, os, cwd)
  {
    var r := AbsPathify(p, env, os, cwd);
    AbsPathifyResult(p, env, os, cwd);
    AbsPathifyAbsolute(r, env', os, cwd');
  }

  /** Wherever absPathify as written does not panic, the total version agrees with it. */
  lemma AbsPathifyTotalAgrees(p: string, env: Env, os: Os, cwd: Option<string>)
    requires CanExpand(p, env, os)
    ensures AbsPathifyTotal(p, env, os, cwd) == AbsPathify(p, env, os, cwd)
  {
  }

  /**
   * The total version never panics and returns "" or an absolute cleaned
   * path. Without the system separator a "$NAME/rest" reads NAME up to
   * the first '/', and a "$NAME" with no separator of either kind reads
   * the whole rest.
   */
  lemma AbsPathifyTotalResult(p: string, env: Env, os: Os, cwd: Option<string>)
    requires WorkingDir(cwd, Sep(os))
    ensures var r := AbsPathifyTotal(p, env, os, cwd);
      r == "" || (IsAbs(r, Sep(os)) && Clean(r, Sep(os)) == r)
    ensures var q := ExpandHome(p, env, os);
      HasPrefix(q, "$") && Sep(os) !in q && '/' !in q ==>
        AbsPathifyTotal(p, env, os, cwd) == Finish(Getenv(env, q[1..]), Sep(os), cwd)
    ensures var q := ExpandHome(p, env, os); var slash := Index(q, '/');
      HasPrefix(q, "$") && Sep(os) !in q && slash >= 0 ==>
        1 <= slash && AbsPathifyTotal(p, env, os, cwd) == Finish(Getenv(env, q[1..slash]) + q[slash..], Sep(os), cwd)
  {
    FinishResult(ExpandVarTotal(ExpandHome(p, env, os), env, Sep(os)), Sep(os), cwd);
  }

  const XdgConfigHome := "XDG_CONFIG_HOME"
  const ConfPathVar := "MOBELL_CONF_PATH"
  const ConfPathEntry := "$" + ConfPathVar
  const XdgDefaultPath := "$" + XdgConfigHome + "/mobell"
  const HomeDefaultPath := "$HOME" + "/.config/mobell"
  const SystemConfigDir := "/" + "etc" + "/" + "mobell" + "/"

  /** defaultUserConfigPath, as chosen in init(). */
  function DefaultUserConfigPath(env: Env): (path: string)
    ensures path == XdgDefaultPath || path == HomeDefaultPath
    ensures path == XdgDefaultPath <==> Getenv(env, XdgConfigHome) != ""
  {
    if Getenv(env, XdgConfigHome) != "" then XdgDefaultPath else HomeDefaultPath
  }

  /** How absPathify reads the XDG default: the variable XDG_CONFIG_HOME, then "/mobell". */
  lemma XdgDefaultPathShape()
    ensures HasPrefix(XdgDefaultPath, "$") && !HasPrefix(XdgDefaultPath, "$HOME")
    ensures Index(XdgDefaultPath, '/') == 16
    ensures XdgDefaultPath[1..16] == XdgConfigHome && XdgDefaultPath[16..] == "/mobell"
  {
    var name, rest := "$" + XdgConfigHome, "/mobell";
    assert XdgDefaultPath[1] != "$HOME"[1];
    assert '/' !in name by {
      assert forall i :: 0 <= i < |name| ==> name[i] != '/';
    }
    assert XdgDefaultPath == name + rest;
    IndexConcat(name, rest, '/');
  }

  /** Outside Windows the XDG default resolves to XDG_CONFIG_HOME/mobell when that variable holds an absolute path. */
  lemma XdgDefaultPathResolves(env: Env, cwd: Option<string>)
    requires WorkingDir(cwd, '/')
    ensures CanExpand(XdgDefaultPath, env, Unix)
    ensures var xdg := Getenv(env, XdgConfigHome);
      xdg != "" && IsAbs(xdg, '/') ==> AbsPathify(XdgDefaultPath, env, Unix, cwd) == Clean(xdg + "/mobell", '/')
  {
    XdgDefaultPathShape();
    AbsPathifyVar(XdgDefaultPath, env, Unix, cwd);
  }

  /**
   * Outside Windows the HOME default can always be expanded. Unless HOME
   * starts with '$', it becomes HOME/.config/mobell made absolute: the
   * cleaned concatenation for an absolute HOME, and the root-relative
   * /.config/mobell when HOME is empty.
   */
  lemma HomeDefaultPathResolves(env: Env, cwd: Option<string>)
    ensures CanExpand(HomeDefaultPath, env, Unix)
    ensures var home := Getenv(env, "HOME");
      !HasPrefix(home, "$") ==>
        AbsPathify(HomeDefaultPath, env, Unix, cwd) == Finish(home + "/.config/mobell", '/', cwd)
    ensures var home := Getenv(env, "HOME");
      IsAbs(home, '/') ==> AbsPathify(HomeDefaultPath, env, Unix, cwd) == Clean(home + "/.config/mobell", '/')
    ensures Getenv(env, "HOME") == "" ==>
      AbsPathify(HomeDefaultPath, env, Unix, cwd) == Clean("/.config/mobell", '/')
  {
    var home := Getenv(env, "HOME");
    var q := home + "/.config/mobell";
    assert HasPrefix(HomeDefaultPath, "$HOME") && HomeDefaultPath[5..] == "/.config/mobell";
    assert q[|home|] == '/';
    if !HasPrefix(home, "$") {
      assert !HasPrefix(q, "$") by {
        if home == "" {
          assert q[0] == '/';
        } else {
          assert q[0] == home[0];
        }
      }
      AbsPathifyHome(HomeDefaultPath, env, Unix, cwd);
      if home == "" {
        assert q == "/.config/mobell";
      }
    }
  }

  /**
   * Outside Windows the default directory resolves to XDG_CONFIG_HOME/mobell
   * when that variable holds an absolute path, and to HOME/.config/mobell
   * when XDG_CONFIG_HOME is empty and HOME is absolute; with both empty it
   * is the root-relative /.config/mobell.
   */
  lemma DefaultUserConfigPathResolves(env: Env, cwd: Option<string>)
    requires WorkingDir(cwd, '/')
    ensures CanExpand(DefaultUserConfigPath(env), env, Unix)
    ensures var xdg := Getenv(env, XdgConfigHome);
      xdg != "" && IsAbs(xdg, '/') ==>
        AbsPathify(DefaultUserConfigPath(env), env, Unix, cwd) == Clean(xdg + "/mobell", '/')
    ensures var home := Getenv(env, "HOME");
      Getenv(env, XdgConfigHome) == "" && IsAbs(home, '/') ==>
        AbsPathify(DefaultUserConfigPath(env), env, Unix, cwd) == Clean(home + "/.config/mobell", '/')
    ensures Getenv(env, XdgConfigHome) == "" && Getenv(env, "HOME") == "" ==>
      AbsPathify(DefaultUserConfigPath(env), env, Unix, cwd) == Clean("/.config/mobell", '/')
  {
    if Getenv(env, XdgConfigHome) != "" {
      XdgDefaultPathResolves(env, cwd);
    } else {
      HomeDefaultPathResolves(env, cwd);
    }
  }

  /**
   * The directories searched for config.json, in order: the directory named
   * by MOBELL_CONF_PATH when it is set, then the default per-user directory,
   * then the system directory.
   */
  function SearchPaths(env: Env): (dirs: seq<string>)
    ensures |dirs| == if Getenv(env, ConfPathVar) != "" then 3 else 2
    ensures dirs[|dirs| - 2] == DefaultUserConfigPath(env) && dirs[|dirs| - 1] == SystemConfigDir
    ensures Getenv(env, ConfPathVar) != "" ==> dirs[0] == ConfPathEntry
  {
    (if Getenv(env, ConfPathVar) != "" then [ConfPathEntry] else [])
      + [DefaultUserConfigPath(env), SystemConfigDir]
  }

  /**
   * "$MOBELL_CONF_PATH" holds no separator, so absPathify as written cannot
   * expand it on either system; the panic-free expansion reads it as the
   * variable's value, made absolute.
   */
  lemma ConfPathEntryResolves(env: Env, os: Os, cwd: Option<string>)
    ensures !CanExpand(ConfPathEntry, env, os)
    ensures AbsPathifyTotal(ConfPathEntry, env, os, cwd) == Finish(Getenv(env, ConfPathVar), Sep(os), cwd)
  {
    assert ConfPathEntry[1] != "$HOME"[1];
    assert '/' !in ConfPathEntry && '\\' !in ConfPathEntry by {
      assert forall i :: 0 <= i < |ConfPathEntry| ==> ConfPathEntry[i] != '/' && ConfPathEntry[i] != '\\';
    }
    assert ConfPathEntry[1..] == ConfPathVar;
    assert ExpandHome(ConfPathEntry, env, os) == ConfPathEntry;
    assert ExpandVarTotal(ConfPathEntry, env, Sep(os)) == Getenv(env, ConfPathVar);
  }

  /** Outside Windows the system directory resolves to /etc/mobell, the trailing separator dropped. */
  lemma SystemConfigDirResolves(env: Env, cwd: Option<string>)
    ensures CanExpand(SystemConfigDir, env, Unix)
    ensures AbsPathify(SystemConfigDir, env, Unix, cwd) == "/etc/mobell"
  {
    var x, y := "etc", "mobell";
    assert SystemConfigDir == ['/'] + x + ['/'] + y + ['/'];
    assert SystemConfigDir[0] == '/';
    CleanTwoNames(x, y, '/');
    assert ['/'] + x + ['/'] + y == "/etc/mobell";
  }

  /**
   * What the search entries resolve to outside Windows under absPathify:
   * the override entry, when present, cannot be expanded as written and is
   * the variable's value under the panic-free expansion; the default entry
   * and the system entry can be expanded, the latter to /etc/mobell.
   */
  lemma SearchPathsResolve(env: Env, cwd: Option<string>)
    requires WorkingDir(cwd, '/')
    ensures var dirs := SearchPaths(env);
      Getenv(env, ConfPathVar) != "" ==>
        !CanExpand(dirs[0], env, Unix) && AbsPathifyTotal(dirs[0], env, Unix, cwd) == Finish(Getenv(env, ConfPathVar), '/', cwd)
    ensures var dirs := SearchPaths(env);
      CanExpand(dirs[|dirs| - 2], env, Unix) && CanExpand(dirs[|dirs| - 1], env, Unix)
    ensures var dirs := SearchPaths(env);
      AbsPathify(dirs[|dirs| - 1], env, Unix, cwd) == "/etc/mobell"
  {
    ConfPathEntryResolves(env, Unix, cwd);
    DefaultUserConfigPathResolves(env, cwd);
    SystemConfigDirResolves(env, cwd);
  }
}
