/** The world a theme object sees: paths, the fixed names of the theme layout on
    disk, the key file that describes a theme, and the two resource sinks (the CSS
    style sheet and the XML layout), each reduced to an oracle that says whether
    appending one more file succeeds. */
module ThemeWorld {

  datatype Option<+T> = None | Some(value: T)

  /** A file-system path as its sequence of segments. */
  type Path = seq<string>

  /** Directory below a theme's folder that holds the descriptor. */
  const ThemeSubpath: string := "xfdashboard-1.0"
  /** File name of a theme descriptor. */
  const ThemeFile: string := "xfdashboard.theme"

  /** Directory containing a file: the path without its last segment. */
  function Dirname(p: Path): (d: Path)
    requires p != []
    ensures d + [p[|p| - 1]] == p
  {
    p[..|p| - 1]
  }

  /** The keys of group "Xfdashboard Theme" of a successfully parsed key file: what a
      locale-string read and a string-list read return for each key. A key that
      is absent from a map is a read that fails. */
  datatype Descriptor = Descriptor(localeStrings: map<string, string>, stringLists: map<string, seq<string>>)

  function LocaleString(d: Descriptor, key: string): (s: Option<string>)
    ensures s.Some? <==> key in d.localeStrings
    ensures s.Some? ==> s.value == d.localeStrings[key]
  {
    if key in d.localeStrings then Some(d.localeStrings[key]) else None
  }

  /** One call of the style sink's add-file operation: the file and its priority. */
  datatype StyleAdd = StyleAdd(file: Path, priority: int)

  /** The environment of one load:
      - the user data directory, the home directory (if known) and the
        compile-time system data directory;
      - the set of paths the lookup's file probe accepts. The probe asks GLib
        whether the path exists OR is a regular file (the flags of one
        `g_file_test` call are alternatives), so this is every existing path,
        directories included;
      - the key files that can be read and parsed, by path;
      - whether the style sink accepts a file, given the files it already holds;
      - the same for the layout sink. */
  datatype Env = Env(
    userDataDir: Path,
    homeDir: Option<Path>,
    systemDataDir: Path,
    probeHits: set<Path>,
    descriptors: map<Path, Descriptor>,
    styleAccepts: (seq<StyleAdd>, StyleAdd) -> bool,
    layoutAccepts: (seq<Path>, Path) -> bool)

  /** What feeding a list of files into a sink, in order, leads to. */
  datatype Fed<T> =
    | AllAdded(added: seq<T>)
    | Rejected(added: seq<T>, failed: T)

  /** Every entry of `plan` is accepted by a sink that holds the entries before it. */
  ghost predicate AllAccepted<T>(accepts: (seq<T>, T) -> bool, plan: seq<T>)
  {
    forall k :: 0 <= k < |plan| ==> accepts(plan[..k], plan[k])
  }

  /** Append the entries of `plan` one by one to a sink already holding `done`,
      stopping at the first one the sink refuses. */
  function Feed<T>(accepts: (seq<T>, T) -> bool, plan: seq<T>, done: seq<T>): Fed<T>
    decreases |plan|
  {
    if plan == [] then AllAdded(done)
    else if accepts(done, plan[0]) then Feed(accepts, plan[1..], done + [plan[0]])
    else Rejected(done, plan[0])
  }

  /** Feeding resumed after `i` entries were accepted. */
  lemma {:induction false} FeedFrom<T>(accepts: (seq<T>, T) -> bool, plan: seq<T>, i: nat)
    requires i <= |plan| && AllAccepted(accepts, plan[..i])
    ensures var f := Feed(accepts, plan[i..], plan[..i]);
      && (f.AllAdded? ==> f.added == plan && AllAccepted(accepts, plan))
      && (f.Rejected? ==>
            i <= |f.added| < |plan| && f.added == plan[..|f.added|] && f.failed == plan[|f.added|]
            && AllAccepted(accepts, f.added) && !accepts(f.added, f.failed))
    decreases |plan| - i
  {
    if i == |plan| {
      assert plan[i..] == [];
      assert plan[..i] == plan;
    } else {
      var rest := plan[i..];
      assert rest[0] == plan[i];
      assert rest[1..] == plan[i + 1..];
      if accepts(plan[..i], plan[i]) {
        assert plan[..i] + [plan[i]] == plan[..i + 1];
        var upto := plan[..i + 1];
        forall k | 0 <= k < |upto|
          ensures accepts(upto[..k], upto[k])
        {
          assert upto[..k] == plan[..k];
          if k < i {
            assert plan[..i][..k] == plan[..k];
          }
        }
        FeedFrom(accepts, plan, i + 1);
      } else {
        assert plan[..i][..i] == plan[..i];
      }
    }
  }

  /** Feeding a fresh sink: either every entry is accepted in order, or the sink
      holds exactly the entries before the first refused one and that one is the
      last attempted. */
  lemma FeedOutcome<T>(accepts: (seq<T>, T) -> bool, plan: seq<T>)
    ensures var f := Feed(accepts, plan, []);
      && (f.AllAdded? ==> f.added == plan && AllAccepted(accepts, plan))
      && (f.Rejected? ==>
            |f.added| < |plan| && f.added == plan[..|f.added|] && f.failed == plan[|f.added|]
            && AllAccepted(accepts, f.added) && !accepts(f.added, f.failed))
  {
    assert plan[0..] == plan;
    assert plan[..0] == [];
    FeedFrom(accepts, plan, 0);
  }

  /** Entries `j` to `i` of `plan` are accepted, so feeding from `j` goes on as feeding from `i`. */
  lemma {:induction false} FeedSkip<T>(accepts: (seq<T>, T) -> bool, plan: seq<T>, j: nat, i: nat)
    requires j <= i <= |plan| && AllAccepted(accepts, plan[..i])
    ensures Feed(accepts, plan[j..], plan[..j]) == Feed(accepts, plan[i..], plan[..i])
    decreases i - j
  {
    if j < i {
      var upto := plan[..i];
      assert upto[..j] == plan[..j] && upto[j] == plan[j];
      assert accepts(plan[..j], plan[j]);
      var rest := plan[j..];
      assert rest[0] == plan[j] && rest[1..] == plan[j + 1..];
      assert plan[..j] + [plan[j]] == plan[..j + 1];
      FeedSkip(accepts, plan, j + 1, i);
    }
  }

  /** When the sink accepts every entry in order, all of them are added. */
  lemma FeedAllAccepted<T>(accepts: (seq<T>, T) -> bool, plan: seq<T>)
    requires AllAccepted(accepts, plan)
    ensures Feed(accepts, plan, []) == AllAdded(plan)
  {
    assert plan[..|plan|] == plan && plan[|plan|..] == [];
    assert plan[0..] == plan && plan[..0] == [];
    FeedSkip(accepts, plan, 0, |plan|);
  }

  /** When entry `i` is the first one the sink refuses, the feed stops there,
      holding the entries before it. */
  lemma FeedFirstRejection<T>(accepts: (seq<T>, T) -> bool, plan: seq<T>, i: nat)
    requires i < |plan| && AllAccepted(accepts, plan[..i]) && !accepts(plan[..i], plan[i])
    ensures Feed(accepts, plan, []) == Rejected(plan[..i], plan[i])
  {
    assert plan[0..] == plan && plan[..0] == [];
    FeedSkip(accepts, plan, 0, i);
    assert plan[i..][0] == plan[i];
  }

  /** The only entries a feed attempts: the accepted ones and the refused one. */
  function Attempted<T>(f: Fed<T>): seq<T>
  {
    match f
    case AllAdded(a) => a
    case Rejected(a, x) => a + [x]
  }
}
