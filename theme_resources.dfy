/** Loading the resources a theme descriptor lists: the display name, the comment,
    every style file (in list order, each tagged with its zero-based position as
    priority) and every primary layout file (in list order). Each step runs only
    if every step before it succeeded. */
module ThemeResources {
  import opened ThemeWorld

  /** Why loading a theme failed. */
  datatype ThemeError =
    | InvalidArgument                                    // empty name or path: the call is refused
    | AlreadyLoaded(requested: string, current: string)  // a theme was loaded before
    | ThemeNotFound(requested: string)                   // no candidate descriptor path passes the probe
    | DescriptorUnreadable(file: Path)                   // the key file cannot be read or parsed
    | MissingKey(key: string)                            // a required key cannot be read
    | ResourceFailed(file: Path)                         // a sink refused a style or layout file

  /** What a successful resource load yields. */
  datatype Resources = Resources(displayName: string, comment: string, styles: seq<StyleAdd>, layouts: seq<Path>)

  datatype Result<+T> = Ok(value: T) | Err(error: ThemeError)

  /** The outcome of a resource load together with every call made to the two
      sinks' add-file operations, in order. */
  datatype Trace = Trace(outcome: Result<Resources>, styleCalls: seq<StyleAdd>, layoutCalls: seq<Path>)

  /** The style sink calls the `Style` entries ask for: entry k of the list, under
      the theme folder, with priority k. */
  function StylePlan(dir: Path, entries: seq<string>): seq<StyleAdd>
  {
    seq(|entries|, k requires 0 <= k < |entries| => StyleAdd(dir + [entries[k]], k))
  }

  /** The layout sink calls the `LayoutPrimary` entries ask for, in list order. */
  function LayoutPlan(dir: Path, entries: seq<string>): seq<Path>
  {
    seq(|entries|, k requires 0 <= k < |entries| => dir + [entries[k]])
  }

  function DescriptorPath(dir: Path): Path
  {
    dir + [ThemeFile]
  }

  /** Reference definition of a resource load from theme folder `dir`. */
  function LoadResourcesTrace(env: Env, dir: Path): Trace
  {
    var file := DescriptorPath(dir);
    if dir == [] then Trace(Err(InvalidArgument), [], [])
    else if file !in env.descriptors then Trace(Err(DescriptorUnreadable(file)), [], [])
    else
      var d := env.descriptors[file];
      if "Name" !in d.localeStrings then Trace(Err(MissingKey("Name")), [], [])
      else if "Comment" !in d.localeStrings then Trace(Err(MissingKey("Comment")), [], [])
      else if "Style" !in d.stringLists then Trace(Err(MissingKey("Style")), [], [])
      else
        match Feed(env.styleAccepts, StylePlan(dir, d.stringLists["Style"]), [])
        case Rejected(done, bad) => Trace(Err(ResourceFailed(bad.file)), done + [bad], [])
        case AllAdded(styles) =>
          if "LayoutPrimary" !in d.stringLists then Trace(Err(MissingKey("LayoutPrimary")), styles, [])
          else
            match Feed(env.layoutAccepts, LayoutPlan(dir, d.stringLists["LayoutPrimary"]), [])
            case Rejected(done, bad) => Trace(Err(ResourceFailed(bad)), styles, done + [bad])
            case AllAdded(layouts) =>
              Trace(Ok(Resources(d.localeStrings["Name"], d.localeStrings["Comment"], styles, layouts)),
                    styles, layouts)
  }

  /** The descriptor of `dir` can be read and has every key a load needs. */
  predicate HasAllKeys(env: Env, dir: Path)
  {
    var file := DescriptorPath(dir);
    file in env.descriptors
    && "Name" in env.descriptors[file].localeStrings
    && "Comment" in env.descriptors[file].localeStrings
    && "Style" in env.descriptors[file].stringLists
    && "LayoutPrimary" in env.descriptors[file].stringLists
  }

  /** A load succeeds exactly when the descriptor is readable, has all four keys,
      and both sinks accept every listed file in order; it then yields the two
      strings and exactly the planned calls. */
  lemma LoadResourcesSucceedsIff(env: Env, dir: Path)
    ensures var t := LoadResourcesTrace(env, dir);
      t.outcome.Ok? <==>
        dir != [] && HasAllKeys(env, dir)
        && AllAccepted(env.styleAccepts, StylePlan(dir, env.descriptors[DescriptorPath(dir)].stringLists["Style"]))
        && AllAccepted(env.layoutAccepts, LayoutPlan(dir, env.descriptors[DescriptorPath(dir)].stringLists["LayoutPrimary"]))
    ensures var t := LoadResourcesTrace(env, dir);
      t.outcome.Ok? ==>
        var d := env.descriptors[DescriptorPath(dir)];
        t.outcome.value == Resources(d.localeStrings["Name"], d.localeStrings["Comment"],
                                     StylePlan(dir, d.stringLists["Style"]),
                                     LayoutPlan(dir, d.stringLists["LayoutPrimary"]))
        && t.styleCalls == t.outcome.value.styles && t.layoutCalls == t.outcome.value.layouts
  {
    var file := DescriptorPath(dir);
    if dir != [] && file in env.descriptors {
      var d := env.descriptors[file];
      if "Style" in d.stringLists {
        var sp := StylePlan(dir, d.stringLists["Style"]);
        FeedOutcome(env.styleAccepts, sp);
        if AllAccepted(env.styleAccepts, sp) {
          FeedAllAccepted(env.styleAccepts, sp);
        }
        if "LayoutPrimary" in d.stringLists {
          var lp := LayoutPlan(dir, d.stringLists["LayoutPrimary"]);
          FeedOutcome(env.layoutAccepts, lp);
          if AllAccepted(env.layoutAccepts, lp) {
            FeedAllAccepted(env.layoutAccepts, lp);
          }
        }
      }
    }
  }

  /** Style files are attempted in exactly list order, entry k with priority k;
      every attempt but possibly the last was accepted; a refused attempt is the
      last one, fails the load with that file, and no layout file is attempted. */
  lemma StylesAttemptedInOrder(env: Env, dir: Path)
    requires dir != [] && DescriptorPath(dir) in env.descriptors
    requires "Style" in env.descriptors[DescriptorPath(dir)].stringLists
    ensures var entries := env.descriptors[DescriptorPath(dir)].stringLists["Style"];
      var calls := LoadResourcesTrace(env, dir).styleCalls;
      |calls| <= |entries|
      && forall k :: 0 <= k < |calls| ==> calls[k] == StyleAdd(dir + [entries[k]], k)
    ensures var t := LoadResourcesTrace(env, dir);
      t.styleCalls != [] ==> AllAccepted(env.styleAccepts, t.styleCalls[..|t.styleCalls| - 1])
    ensures var t := LoadResourcesTrace(env, dir);
      var n := |t.styleCalls|;
      n > 0 && !env.styleAccepts(t.styleCalls[..n - 1], t.styleCalls[n - 1]) ==>
        t.outcome == Err(ResourceFailed(t.styleCalls[n - 1].file)) && t.layoutCalls == []
  {
    var d := env.descriptors[DescriptorPath(dir)];
    var sp := StylePlan(dir, d.stringLists["Style"]);
    var t := LoadResourcesTrace(env, dir);
    FeedOutcome(env.styleAccepts, sp);
    var f := Feed(env.styleAccepts, sp, []);
    if "Name" in d.localeStrings && "Comment" in d.localeStrings {
      if f.Rejected? {
        assert t.styleCalls == f.added + [f.failed];
        assert t.styleCalls[..|t.styleCalls| - 1] == f.added;
        assert t.styleCalls == sp[..|f.added| + 1];
      } else {
        var n := |t.styleCalls|;
        if n > 0 {
          var k := n - 1;
          assert sp[..k] == t.styleCalls[..k];
          assert env.styleAccepts(sp[..k], sp[k]);
          var before := t.styleCalls[..k];
          forall j | 0 <= j < |before|
            ensures env.styleAccepts(before[..j], before[j])
          {
            assert before[..j] == sp[..j];
          }
        }
      }
    }
  }

  /** The first refused style file ends the load: the calls are the entries up to
      and including it, the error names it, and no later style file and no layout
      file is attempted. */
  lemma StyleRejectionStopsLoad(env: Env, dir: Path, i: nat)
    requires dir != [] && DescriptorPath(dir) in env.descriptors
    requires var d := env.descriptors[DescriptorPath(dir)];
      "Name" in d.localeStrings && "Comment" in d.localeStrings && "Style" in d.stringLists
    requires var sp := StylePlan(dir, env.descriptors[DescriptorPath(dir)].stringLists["Style"]);
      i < |sp| && AllAccepted(env.styleAccepts, sp[..i]) && !env.styleAccepts(sp[..i], sp[i])
    ensures var sp := StylePlan(dir, env.descriptors[DescriptorPath(dir)].stringLists["Style"]);
      var t := LoadResourcesTrace(env, dir);
      t == Trace(Err(ResourceFailed(sp[i].file)), sp[..i + 1], [])
  {
    var sp := StylePlan(dir, env.descriptors[DescriptorPath(dir)].stringLists["Style"]);
    FeedFirstRejection(env.styleAccepts, sp, i);
    assert sp[..i] + [sp[i]] == sp[..i + 1];
  }

  /** A layout file is attempted only after every style file was accepted and the
      `LayoutPrimary` key was read; layout files go in list order, every attempt but
      possibly the last was accepted, and a refused one fails the load with that file. */
  lemma LayoutsOnlyAfterStyles(env: Env, dir: Path)
    ensures var t := LoadResourcesTrace(env, dir);
      t.layoutCalls != [] ==>
        dir != [] && HasAllKeys(env, dir)
        && var d := env.descriptors[DescriptorPath(dir)];
        var sp := StylePlan(dir, d.stringLists["Style"]);
        var entries := d.stringLists["LayoutPrimary"];
        t.styleCalls == sp && AllAccepted(env.styleAccepts, sp)
        && |t.layoutCalls| <= |entries|
        && (forall k :: 0 <= k < |t.layoutCalls| ==> t.layoutCalls[k] == dir + [entries[k]])
        && AllAccepted(env.layoutAccepts, t.layoutCalls[..|t.layoutCalls| - 1])
        && (t.outcome.Err? ==> t.outcome.error == ResourceFailed(t.layoutCalls[|t.layoutCalls| - 1]))
  {
    var t := LoadResourcesTrace(env, dir);
    if t.layoutCalls != [] {
      var d := env.descriptors[DescriptorPath(dir)];
      var sp := StylePlan(dir, d.stringLists["Style"]);
      var lp := LayoutPlan(dir, d.stringLists["LayoutPrimary"]);
      FeedOutcome(env.styleAccepts, sp);
      FeedOutcome(env.layoutAccepts, lp);
      var f := Feed(env.layoutAccepts, lp, []);
      var n := |t.layoutCalls|;
      if f.Rejected? {
        assert t.layoutCalls == f.added + [f.failed];
        assert t.layoutCalls[..n - 1] == f.added;
        assert t.layoutCalls == lp[..|f.added| + 1];
      } else {
        assert t.layoutCalls == lp;
        var before := t.layoutCalls[..n - 1];
        forall j | 0 <= j < |before|
          ensures env.layoutAccepts(before[..j], before[j])
        {
          assert before[..j] == lp[..j];
        }
      }
    }
  }

  /** A missing descriptor or key aborts the load at that step: the error names
      it and no later step runs, so a missing `Style` means no sink call at all. */
  lemma MissingKeyAborts(env: Env, dir: Path)
    requires dir != []
    ensures var file := DescriptorPath(dir);
      file !in env.descriptors ==> LoadResourcesTrace(env, dir) == Trace(Err(DescriptorUnreadable(file)), [], [])
    ensures var file := DescriptorPath(dir);
      file in env.descriptors && "Name" !in env.descriptors[file].localeStrings ==>
        LoadResourcesTrace(env, dir) == Trace(Err(MissingKey("Name")), [], [])
    ensures var file := DescriptorPath(dir);
      file in env.descriptors && "Name" in env.descriptors[file].localeStrings
      && "Comment" !in env.descriptors[file].localeStrings ==>
        LoadResourcesTrace(env, dir) == Trace(Err(MissingKey("Comment")), [], [])
    ensures var file := DescriptorPath(dir);
      file in env.descriptors && "Name" in env.descriptors[file].localeStrings
      && "Comment" in env.descriptors[file].localeStrings && "Style" !in env.descriptors[file].stringLists ==>
        LoadResourcesTrace(env, dir) == Trace(Err(MissingKey("Style")), [], [])
  {
  }

  /** A descriptor without `LayoutPrimary` fails the load with that key even when
      every style file was accepted; no layout file is attempted. */
  lemma MissingLayoutAfterStyles(env: Env, dir: Path)
    requires dir != [] && DescriptorPath(dir) in env.descriptors
    requires var d := env.descriptors[DescriptorPath(dir)];
      "Name" in d.localeStrings && "Comment" in d.localeStrings && "Style" in d.stringLists
      && "LayoutPrimary" !in d.stringLists
    requires AllAccepted(env.styleAccepts, StylePlan(dir, env.descriptors[DescriptorPath(dir)].stringLists["Style"]))
    ensures var sp := StylePlan(dir, env.descriptors[DescriptorPath(dir)].stringLists["Style"]);
      LoadResourcesTrace(env, dir) == Trace(Err(MissingKey("LayoutPrimary")), sp, [])
  {
    FeedAllAccepted(env.styleAccepts, StylePlan(dir, env.descriptors[DescriptorPath(dir)].stringLists["Style"]));
  }

  /** `Style = [a, b, c]`, all accepted: the sink receives (a, 0), (b, 1), (c, 2) in that order. */
  lemma StyleOrderExample(env: Env, dir: Path, a: string, b: string, c: string)
    requires dir != [] && DescriptorPath(dir) in env.descriptors
    requires var d := env.descriptors[DescriptorPath(dir)];
      "Name" in d.localeStrings && "Comment" in d.localeStrings && "Style" in d.stringLists
      && d.stringLists["Style"] == [a, b, c]
    requires env.styleAccepts([], StyleAdd(dir + [a], 0))
    requires env.styleAccepts([StyleAdd(dir + [a], 0)], StyleAdd(dir + [b], 1))
    requires env.styleAccepts([StyleAdd(dir + [a], 0), StyleAdd(dir + [b], 1)], StyleAdd(dir + [c], 2))
    ensures LoadResourcesTrace(env, dir).styleCalls == [StyleAdd(dir + [a], 0), StyleAdd(dir + [b], 1), StyleAdd(dir + [c], 2)]
  {
    var sp := StylePlan(dir, [a, b, c]);
    assert sp == [StyleAdd(dir + [a], 0), StyleAdd(dir + [b], 1), StyleAdd(dir + [c], 2)];
    assert sp[..0] == [] && sp[..1] == [sp[0]] && sp[..2] == [sp[0], sp[1]];
    FeedAllAccepted(env.styleAccepts, sp);
  }

  /** `Style = [a, bad, c]` where `bad` is refused: `a` then `bad` are attempted,
      `c` never is, no layout is read, and the load fails naming `bad`. */
  lemma StyleRollbackExample(env: Env, dir: Path, a: string, bad: string, c: string)
    requires dir != [] && DescriptorPath(dir) in env.descriptors
    requires var d := env.descriptors[DescriptorPath(dir)];
      "Name" in d.localeStrings && "Comment" in d.localeStrings && "Style" in d.stringLists
      && d.stringLists["Style"] == [a, bad, c]
    requires env.styleAccepts([], StyleAdd(dir + [a], 0))
    requires !env.styleAccepts([StyleAdd(dir + [a], 0)], StyleAdd(dir + [bad], 1))
    ensures LoadResourcesTrace(env, dir) ==
      Trace(Err(ResourceFailed(dir + [bad])), [StyleAdd(dir + [a], 0), StyleAdd(dir + [bad], 1)], [])
  {
    var sp := StylePlan(dir, [a, bad, c]);
    assert sp == [StyleAdd(dir + [a], 0), StyleAdd(dir + [bad], 1), StyleAdd(dir + [c], 2)];
    assert sp[..0] == [] && sp[..1] == [sp[0]] && sp[..2] == [sp[0], sp[1]];
    FeedFirstRejection(env.styleAccepts, sp, 1);
  }
}
