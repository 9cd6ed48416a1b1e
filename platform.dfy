/**
 * What main.go asks of the host: environment variables, the operating
 * system (runtime.GOOS) and its path separator, and the user's home
 * directory. The environment is an explicit map; an unset variable reads
 * as the empty string, as with os.Getenv.
 */
module Platform {
  import opened FilePath

  /** runtime.GOOS, as far as main.go distinguishes it: "windows" or anything else. */
  datatype Os = Windows | Unix

  type Env = map<string, string>

  /** os.Getenv */
  function Getenv(env: Env, name: string): string
  {
    if name in env then env[name] else ""
  }

  /** os.PathSeparator */
  function Sep(os: Os): Separator
  {
    if os == Windows then '\\' else '/'
  }

  /**
   * userHomeDir: HOME outside Windows; on Windows HOMEDRIVE followed by
   * HOMEPATH, or USERPROFILE when both of those are empty.
   */
  function UserHomeDir(env: Env, os: Os): string
  {
    if os == Windows then
      var home := Getenv(env, "HOMEDRIVE") + Getenv(env, "HOMEPATH");
      if home == "" then Getenv(env, "USERPROFILE") else home
    else Getenv(env, "HOME")
  }

  /**
   * Which variables the home directory depends on: HOME alone outside
   * Windows; on Windows never HOME, and USERPROFILE only when HOMEDRIVE and
   * HOMEPATH are both empty, in which case it is the whole answer.
   */
  lemma UserHomeDirSources(env: Env, os: Os, name: string, value: string)
    ensures os == Unix && name != "HOME" ==>
      UserHomeDir(env[name := value], os) == UserHomeDir(env, os)
    ensures os == Unix ==> UserHomeDir(env["HOME" := value], os) == value
    ensures os == Windows && name !in {"HOMEDRIVE", "HOMEPATH", "USERPROFILE"} ==>
      UserHomeDir(env[name := value], os) == UserHomeDir(env, os)
    ensures os == Windows && Getenv(env, "HOMEDRIVE") + Getenv(env, "HOMEPATH") != "" ==>
      UserHomeDir(env["USERPROFILE" := value], os) == Getenv(env, "HOMEDRIVE") + Getenv(env, "HOMEPATH")
    ensures os == Windows && Getenv(env, "HOMEDRIVE") == "" && Getenv(env, "HOMEPATH") == "" ==>
      UserHomeDir(env, os) == Getenv(env, "USERPROFILE")
    ensures os == Windows ==>
      (UserHomeDir(env, os) == "" <==>
        Getenv(env, "HOMEDRIVE") == "" && Getenv(env, "HOMEPATH") == "" && Getenv(env, "USERPROFILE") == "")
  {
  }
}
