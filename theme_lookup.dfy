/** Finding the directory of a named theme: three candidate descriptor paths are
    probed in a fixed order and the first one the file probe accepts wins. */
module ThemeLookup {
  import opened ThemeWorld

  /** `<base>/<themesDir>/<name>/xfdashboard-1.0`: the folder a descriptor is looked for in. */
  function ThemeDir(base: Path, themesDir: string, name: string): Path
  {
    base + [themesDir, name, ThemeSubpath]
  }

  function UserCandidate(env: Env, name: string): Path
  {
    ThemeDir(env.userDataDir, "themes", name) + [ThemeFile]
  }

  function HomeCandidate(home: Path, name: string): Path
  {
    ThemeDir(home, ".themes", name) + [ThemeFile]
  }

  function SystemCandidate(env: Env, name: string): Path
  {
    ThemeDir(env.systemDataDir, "themes", name) + [ThemeFile]
  }

  /** The descriptor paths probed, in order; the home candidate only when the
      home directory is known. */
  function Candidates(env: Env, name: string): (cs: seq<Path>)
    ensures |cs| == if env.homeDir.Some? then 3 else 2
    ensures cs[0] == UserCandidate(env, name) && cs[|cs| - 1] == SystemCandidate(env, name)
    ensures env.homeDir.Some? ==> cs[1] == HomeCandidate(env.homeDir.value, name)
  {
    [UserCandidate(env, name)]
    + (match env.homeDir case Some(h) => [HomeCandidate(h, name)] case None => [])
    + [SystemCandidate(env, name)]
  }

  /** Index of the first candidate in `hits`, or |cs| if none is. */
  function FirstHit(cs: seq<Path>, hits: set<Path>): (i: nat)
    ensures i <= |cs|
    ensures forall j :: 0 <= j < i ==> cs[j] !in hits
    ensures i < |cs| ==> cs[i] in hits
  {
    if cs == [] then 0
    else if cs[0] in hits then 0
    else 1 + FirstHit(cs[1..], hits)
  }

  /** Reference definition of the lookup: the directory of the first candidate
      the file probe accepts, or nothing. An empty name is refused. */
  function Lookup(env: Env, name: string): Option<Path>
  {
    if name == [] then None
    else
      var cs := Candidates(env, name);
      var i := FirstHit(cs, env.probeHits);
      if i < |cs| then Some(Dirname(cs[i])) else None
  }

  /** The lookup as the source performs it: three guarded probes updating one
      candidate variable, then the directory of whatever was found. */
  method LookupPathForTheme(env: Env, name: string) returns (path: Option<Path>)
    ensures path == Lookup(env, name)
  {
    if name == [] {
      return None;
    }
    var themeFile: Option<Path> := None;
    if themeFile.None? {
      var candidate := UserCandidate(env, name);
      if candidate in env.probeHits {
        themeFile := Some(candidate);
      }
    }
    if themeFile.None? {
      match env.homeDir {
        case Some(home) =>
          var candidate := HomeCandidate(home, name);
          if candidate in env.probeHits {
            themeFile := Some(candidate);
          }
        case None =>
      }
    }
    if themeFile.None? {
      var candidate := SystemCandidate(env, name);
      if candidate in env.probeHits {
        themeFile := Some(candidate);
      }
    }
    if themeFile.Some? {
      path := Some(Dirname(themeFile.value));
    } else {
      path := None;
    }
  }

  /** The lookup finds something exactly when the name is not empty and some
      candidate passes the probe; what it finds is the folder of the first such
      candidate. */
  lemma LookupFindsFirstHit(env: Env, name: string)
    ensures var cs := Candidates(env, name);
      Lookup(env, name).Some? <==> name != [] && exists j :: 0 <= j < |cs| && cs[j] in env.probeHits
    ensures var cs := Candidates(env, name);
      Lookup(env, name).Some? ==>
        exists i :: 0 <= i < |cs| && cs[i] in env.probeHits
          && (forall j :: 0 <= j < i ==> cs[j] !in env.probeHits)
          && Lookup(env, name).value + [ThemeFile] == cs[i]
  {
  }

  /** A theme under the user data directory wins over every other location. */
  lemma LookupPrefersUserData(env: Env, name: string)
    requires name != []
    requires UserCandidate(env, name) in env.probeHits
    ensures Lookup(env, name) == Some(ThemeDir(env.userDataDir, "themes", name))
  {
  }

  /** A theme under the home directory wins over the system one when the user
      data directory does not hold it. */
  lemma LookupPrefersHome(env: Env, name: string)
    requires name != [] && env.homeDir.Some?
    requires UserCandidate(env, name) !in env.probeHits
    requires HomeCandidate(env.homeDir.value, name) in env.probeHits
    ensures Lookup(env, name) == Some(ThemeDir(env.homeDir.value, ".themes", name))
  {
  }

  /** Without a home directory the lookup does not fail: it goes from the user
      data directory straight to the system directory. */
  lemma LookupSkipsMissingHome(env: Env, name: string)
    requires name != [] && env.homeDir.None?
    ensures Lookup(env, name) ==
      if UserCandidate(env, name) in env.probeHits then Some(ThemeDir(env.userDataDir, "themes", name))
      else if SystemCandidate(env, name) in env.probeHits then Some(ThemeDir(env.systemDataDir, "themes", name))
      else None
  {
  }

  /** The system directory is used only when neither user location holds the theme. */
  lemma LookupFallsBackToSystem(env: Env, name: string)
    requires name != []
    requires UserCandidate(env, name) !in env.probeHits
    requires env.homeDir.Some? ==> HomeCandidate(env.homeDir.value, name) !in env.probeHits
    ensures Lookup(env, name) ==
      if SystemCandidate(env, name) in env.probeHits then Some(ThemeDir(env.systemDataDir, "themes", name))
      else None
  {
  }

  /** Whatever the lookup returns is one of the three theme folders, never empty,
      and its descriptor path passed the probe. */
  lemma LookupResultIsThemeDir(env: Env, name: string)
    requires Lookup(env, name).Some?
    ensures var d := Lookup(env, name).value;
      d != [] && d + [ThemeFile] in env.probeHits
      && (d == ThemeDir(env.userDataDir, "themes", name)
          || (env.homeDir.Some? && d == ThemeDir(env.homeDir.value, ".themes", name))
          || d == ThemeDir(env.systemDataDir, "themes", name))
  {
  }
}
