/** The theme object: its private state, the one-shot load that looks a theme up
    and loads its resources, the cleanup that runs on every failure, and the
    read accessors. */
module ThemeObject {
  import opened ThemeWorld
  import opened ThemeLookup
  import opened ThemeResources

  /** What a load reports to its caller. */
  datatype Outcome = Success | Failure(error: ThemeError)

  /** A resource load's result as a load reports it: its error passed on unchanged. */
  function Report(r: Result<Resources>): Outcome
  {
    match r
    case Ok(_) => Success
    case Err(e) => Failure(e)
  }

  /** The style sheet built from the theme's style files: the files it holds. */
  datatype StyleSink = StyleSink(files: seq<StyleAdd>)

  /** The layout built from the theme's primary layout files: the files it holds. */
  datatype LayoutSink = LayoutSink(files: seq<Path>)

  /** Whether a load of `name` finds the theme and loads all of its resources. */
  predicate LoadSucceeds(env: Env, name: string)
  {
    name != [] && Lookup(env, name).Some?
    && LoadResourcesTrace(env, Lookup(env, name).value).outcome.Ok?
  }

  class Theme {
    var themeName: Option<string>
    var themePath: Option<Path>
    var themeDisplayName: Option<string>
    var themeComment: Option<string>
    var styling: Option<StyleSink>
    var layout: Option<LayoutSink>

    /** Every call this object made to the style sink's and the layout sink's
        add-file operations, over its whole life, in order. */
    ghost var styleCalls: seq<StyleAdd>
    ghost var layoutCalls: seq<Path>

    /** Between calls, the name, the path, the comment, the style sheet and the
        layout are either all set or all unset, and a set name comes with a display
        name. A display name may outlive a failed load (cleanup never clears it). */
    predicate Valid()
      reads this
    {
      (themeName.Some? <==> themePath.Some?)
      && (themeName.Some? <==> themeComment.Some?)
      && (themeName.Some? <==> styling.Some?)
      && (themeName.Some? <==> layout.Some?)
      && (themeName.Some? ==> themeDisplayName.Some?)
    }

    /** The fields that cleanup releases are all unset. */
    predicate Released()
      reads this
    {
      themeName.None? && themePath.None? && themeComment.None? && styling.None? && layout.None?
    }

    constructor ()
      ensures Valid() && Released() && themeDisplayName.None?
      ensures styleCalls == [] && layoutCalls == []
    {
      themeName := None;
      themePath := None;
      themeDisplayName := None;
      themeComment := None;
      styling := None;
      layout := None;
      styleCalls := [];
      layoutCalls := [];
    }

    /** Releases the name, the path, the comment, the style sheet and the layout.
        The comment is released twice over in the source and the display name not
        at all; the display name is therefore kept. */
    method Clean()
      modifies this
      ensures Released() && Valid()
      ensures themeDisplayName == old(themeDisplayName)
      ensures styleCalls == old(styleCalls) && layoutCalls == old(layoutCalls)
    {
      themeName := None;
      themePath := None;
      themeComment := None;
      styling := None;
      layout := None;
    }

    /** Cleanup as its release comments intend: everything `Clean` releases and
        the display name too, which leaves the state of a new theme. */
    method CleanAll()
      modifies this
      ensures Released() && Valid() && themeDisplayName.None?
      ensures styleCalls == old(styleCalls) && layoutCalls == old(layoutCalls)
    {
      Clean();
      themeDisplayName := None;
    }

    /** Appends the style files `resources` lists, under theme folder `dir`, to the
        fresh style sheet in list order with priorities 0, 1, 2, ..., stopping at
        the first file the sheet refuses. */
    method AddStyleFiles(env: Env, dir: Path, resources: seq<string>) returns (ok: bool)
      requires styling == Some(StyleSink([]))
      modifies this`styling, this`styleCalls
      ensures var f := Feed(env.styleAccepts, StylePlan(dir, resources), []);
        ok == f.AllAdded?
        && styleCalls == old(styleCalls) + Attempted(f)
        && styling == Some(StyleSink(f.added))
    {
      ghost var plan := StylePlan(dir, resources);
      var counter := 0;
      var resource := 0;
      while resource < |resources|
        invariant 0 <= resource <= |resources| && counter == resource
        invariant styling == Some(StyleSink(plan[..resource]))
        invariant Feed(env.styleAccepts, plan[resource..], plan[..resource]) == Feed(env.styleAccepts, plan, [])
        invariant styleCalls == old(styleCalls) + plan[..resource]
      {
        var resourceFile := dir + [resources[resource]];
        var add := StyleAdd(resourceFile, counter);
        assert add == plan[resource] && plan[resource..][0] == plan[resource];
        styleCalls := styleCalls + [add];
        if !env.styleAccepts(styling.value.files, add) {
          return false;
        }
        assert plan[resource..][1..] == plan[resource + 1..];
        assert plan[..resource] + [add] == plan[..resource + 1];
        styling := Some(StyleSink(styling.value.files + [add]));
        resource := resource + 1;
        counter := counter + 1;
      }
      assert plan[..resource] == plan && plan[resource..] == [];
      return true;
    }

    /** Appends the layout files `resources` lists, under theme folder `dir`, to the
        fresh layout in list order, stopping at the first file the layout refuses. */
    method AddLayoutFiles(env: Env, dir: Path, resources: seq<string>) returns (ok: bool)
      requires layout == Some(LayoutSink([]))
      modifies this`layout, this`layoutCalls
      ensures var f := Feed(env.layoutAccepts, LayoutPlan(dir, resources), []);
        ok == f.AllAdded?
        && layoutCalls == old(layoutCalls) + Attempted(f)
        && layout == Some(LayoutSink(f.added))
    {
      ghost var plan := LayoutPlan(dir, resources);
      var resource := 0;
      while resource < |resources|
        invariant 0 <= resource <= |resources|
        invariant layout == Some(LayoutSink(plan[..resource]))
        invariant Feed(env.layoutAccepts, plan[resource..], plan[..resource]) == Feed(env.layoutAccepts, plan, [])
        invariant layoutCalls == old(layoutCalls) + plan[..resource]
      {
        var resourceFile := dir + [resources[resource]];
        assert resourceFile == plan[resource] && plan[resource..][0] == plan[resource];
        layoutCalls := layoutCalls + [resourceFile];
        if !env.layoutAccepts(layout.value.files, resourceFile) {
          return false;
        }
        assert plan[resource..][1..] == plan[resource + 1..];
        assert plan[..resource] + [resourceFile] == plan[..resource + 1];
        layout := Some(LayoutSink(layout.value.files + [resourceFile]));
        resource := resource + 1;
      }
      assert plan[..resource] == plan && plan[resource..] == [];
      return true;
    }

    /** Reads the descriptor in theme folder `dir` and loads the resources it
        lists, in order, cleaning up on the first failure. */
    method LoadResources(env: Env, dir: Path) returns (r: Outcome)
      modifies this
      ensures var t := LoadResourcesTrace(env, dir);
        r == Report(t.outcome)
        && styleCalls == old(styleCalls) + t.styleCalls
        && layoutCalls == old(layoutCalls) + t.layoutCalls
      ensures dir == [] ==> unchanged(this)
      ensures r.Success? ==>
        var res := LoadResourcesTrace(env, dir).outcome.value;
        themeName == old(themeName) && themePath == old(themePath)
        && themeDisplayName == Some(res.displayName) && themeComment == Some(res.comment)
        && styling == Some(StyleSink(res.styles)) && layout == Some(LayoutSink(res.layouts))
      ensures r.Failure? && dir != [] ==> Released()
      ensures dir != [] ==>
        themeDisplayName ==
          if DescriptorPath(dir) in env.descriptors then LocaleString(env.descriptors[DescriptorPath(dir)], "Name")
          else old(themeDisplayName)
    {
      if dir == [] {
        return Failure(InvalidArgument);
      }

      // Load the descriptor
      var themeFile := dir + [ThemeFile];
      if themeFile !in env.descriptors {
        Clean();
        return Failure(DescriptorUnreadable(themeFile));
      }
      var keyFile := env.descriptors[themeFile];

      // Display name and comment
      themeDisplayName := LocaleString(keyFile, "Name");
      if themeDisplayName.None? {
        Clean();
        return Failure(MissingKey("Name"));
      }
      themeComment := LocaleString(keyFile, "Comment");
      if themeComment.None? {
        Clean();
        return Failure(MissingKey("Comment"));
      }

      // Style files, in list order, each with its position as priority
      if "Style" !in keyFile.stringLists {
        Clean();
        return Failure(MissingKey("Style"));
      }
      styling := Some(StyleSink([]));
      var stylesOk := AddStyleFiles(env, dir, keyFile.stringLists["Style"]);
      if !stylesOk {
        Clean();
        return Failure(ResourceFailed(Feed(env.styleAccepts, StylePlan(dir, keyFile.stringLists["Style"]), []).failed.file));
      }

      // Primary layout files, in list order
      if "LayoutPrimary" !in keyFile.stringLists {
        Clean();
        return Failure(MissingKey("LayoutPrimary"));
      }
      layout := Some(LayoutSink([]));
      var layoutsOk := AddLayoutFiles(env, dir, keyFile.stringLists["LayoutPrimary"]);
      if !layoutsOk {
        Clean();
        return Failure(ResourceFailed(Feed(env.layoutAccepts, LayoutPlan(dir, keyFile.stringLists["LayoutPrimary"]), []).failed));
      }
      return Success;
    }

    /** Looks up theme `name` and loads it. Refused when the name is empty or a
        theme is already loaded, and a failed lookup, without any change; any
        later failure releases what the attempt built, so a load may be retried.
        Name and path are set only when every resource loaded. */
    method Load(env: Env, name: string) returns (r: Outcome)
      requires Valid()
      modifies this
      ensures Valid()
      ensures name == [] ==> r == Failure(InvalidArgument) && unchanged(this)
      ensures name != [] && old(themeName).Some? ==>
        r == Failure(AlreadyLoaded(name, old(themeName).value)) && unchanged(this)
      ensures name != [] && old(themeName).None? && Lookup(env, name).None? ==>
        r == Failure(ThemeNotFound(name)) && unchanged(this)
      ensures name != [] && old(themeName).None? && Lookup(env, name).Some? ==>
        var dir := Lookup(env, name).value;
        var t := LoadResourcesTrace(env, dir);
        r == Report(t.outcome)
        && styleCalls == old(styleCalls) + t.styleCalls
        && layoutCalls == old(layoutCalls) + t.layoutCalls
        && (r.Success? ==>
              themeName == Some(name) && themePath == Some(dir)
              && themeDisplayName == Some(t.outcome.value.displayName)
              && themeComment == Some(t.outcome.value.comment)
              && styling == Some(StyleSink(t.outcome.value.styles))
              && layout == Some(LayoutSink(t.outcome.value.layouts)))
        && (r.Failure? ==>
              Released()
              && themeDisplayName ==
                   if DescriptorPath(dir) in env.descriptors
                   then LocaleString(env.descriptors[DescriptorPath(dir)], "Name")
                   else old(themeDisplayName))
    {
      if name == [] {
        return Failure(InvalidArgument);
      }
      if themeName.Some? {
        return Failure(AlreadyLoaded(name, themeName.value));
      }
      var found := LookupPathForTheme(env, name);
      if found.None? {
        return Failure(ThemeNotFound(name));
      }
      var dir := found.value;
      LookupResultIsThemeDir(env, name);
      r := LoadResources(env, dir);
      if r.Failure? {
        return;
      }
      themePath := Some(dir);
      themeName := Some(name);
    }

    /** The name the theme was loaded under; set exactly when a theme is loaded,
        and then every other part of it is set too. */
    function GetThemeName(): (n: Option<string>)
      reads this
      requires Valid()
      ensures n.Some? ==> themePath.Some? && themeDisplayName.Some? && themeComment.Some?
                          && styling.Some? && layout.Some?
    {
      themeName
    }

    /** The display name read from the descriptor. Set whenever a theme is loaded;
        it may also be set while none is, after a failed load. */
    function GetDisplayName(): (d: Option<string>)
      reads this
      requires Valid()
      ensures themeName.Some? ==> d.Some?
    {
      themeDisplayName
    }

    /** The comment read from the descriptor; set exactly when a theme is loaded. */
    function GetComment(): (c: Option<string>)
      reads this
      requires Valid()
      ensures c.Some? <==> themeName.Some?
    {
      themeComment
    }

    /** The theme's style sheet; present exactly when a theme is loaded. */
    function GetCss(): (s: Option<StyleSink>)
      reads this
      requires Valid()
      ensures s.Some? <==> themeName.Some?
    {
      styling
    }

    /** The theme's layout; present exactly when a theme is loaded. */
    function GetLayout(): (l: Option<LayoutSink>)
      reads this
      requires Valid()
      ensures l.Some? <==> themeName.Some?
    {
      layout
    }
  }

  /** A second load on an object that loaded a theme is refused with the
      already-loaded error and leaves every accessor as the first load left it. */
  method LoadTwice(env: Env, first: string, second: string)
      returns (r1: Outcome, r2: Outcome, current: Option<string>, kept: bool)
    requires LoadSucceeds(env, first) && second != []
    ensures r1 == Success
    ensures r2 == Failure(AlreadyLoaded(second, first))
    ensures current == Some(first)
    ensures kept
  {
    var theme := new Theme();
    r1 := theme.Load(env, first);
    var name, display, comment, css, lay :=
      theme.GetThemeName(), theme.GetDisplayName(), theme.GetComment(), theme.GetCss(), theme.GetLayout();
    r2 := theme.Load(env, second);
    current := theme.GetThemeName();
    kept := name == current && display == theme.GetDisplayName() && comment == theme.GetComment()
            && css == theme.GetCss() && lay == theme.GetLayout();
  }

  /** A failed load leaves the object free for another attempt, which can succeed. */
  method RetryAfterFailure(env: Env, bad: string, good: string)
      returns (r1: Outcome, r2: Outcome, current: Option<string>)
    requires bad != [] && !LoadSucceeds(env, bad) && LoadSucceeds(env, good)
    ensures r1.Failure? && r2 == Success && current == Some(good)
  {
    var theme := new Theme();
    r1 := theme.Load(env, bad);
    r2 := theme.Load(env, good);
    current := theme.GetThemeName();
  }

  /** A load that read the display name and then failed leaves no theme name,
      path, comment, style sheet or layout, but keeps the display name it read. */
  method FailedLoadKeepsDisplayName(env: Env, name: string)
      returns (r: Outcome, loaded: Option<string>, comment: Option<string>, display: Option<string>)
    requires name != [] && Lookup(env, name).Some? && !LoadSucceeds(env, name)
    requires var file := DescriptorPath(Lookup(env, name).value);
      file in env.descriptors && "Name" in env.descriptors[file].localeStrings
    ensures r.Failure? && loaded.None? && comment.None?
    ensures display == Some(env.descriptors[DescriptorPath(Lookup(env, name).value)].localeStrings["Name"])
  {
    var theme := new Theme();
    r := theme.Load(env, name);
    loaded, comment, display := theme.GetThemeName(), theme.GetComment(), theme.GetDisplayName();
  }

  /** With the intended cleanup run after a failed load that had read `Name`,
      every accessor reads as unset again, as on a new theme. */
  method FailedLoadThenCleanAll(env: Env, name: string)
      returns (r: Outcome, loaded: Option<string>, display: Option<string>, comment: Option<string>,
               css: Option<StyleSink>, lay: Option<LayoutSink>)
    requires name != [] && Lookup(env, name).Some? && !LoadSucceeds(env, name)
    requires var file := DescriptorPath(Lookup(env, name).value);
      file in env.descriptors && "Name" in env.descriptors[file].localeStrings
    ensures r.Failure?
    ensures loaded.None? && display.None? && comment.None? && css.None? && lay.None?
  {
    var theme := new Theme();
    r := theme.Load(env, name);
    theme.CleanAll();
    loaded, display, comment := theme.GetThemeName(), theme.GetDisplayName(), theme.GetComment();
    css, lay := theme.GetCss(), theme.GetLayout();
  }
}
