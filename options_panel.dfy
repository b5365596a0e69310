/**
 * The selection state of `frontend/src/components/OptionsPanel.tsx`: the
 * plugin and file toggles, the file name shown for a path, and the effect
 * that fills an empty plugin list and switches Chain-of-Thought off while a
 * plugin is enabled. Each handler is a function from the old state to the
 * value handed to the React setter.
 */
module OptionsPanel {
  import opened Text
  import opened Schema
  import Files

  // ---------------------------------------------------------------------------
  // Plugins

  /** `AVAILABLE_PLUGINS`, as (id, tool name). */
  const AvailablePlugins: seq<(int, string)> :=
    [(1, "web_search"), (2, "code_interpreter"), (3, "wikipedia"), (4, "arxiv")]

  /** The registry plugins, all disabled. */
  function InitialPlugins(): (r: seq<PluginDetail>)
    ensures |r| == |AvailablePlugins| == 4
    ensures forall i :: 0 <= i < |r| ==>
      r[i].id == i + 1 && r[i].toolName == AvailablePlugins[i].1 && !r[i].enable
  {
    seq(|AvailablePlugins|, i requires 0 <= i < |AvailablePlugins| =>
      PluginDetail(AvailablePlugins[i].0, AvailablePlugins[i].1, false))
  }

  /** `pluginDetail.some((p) => p.enable)`. */
  predicate AnyEnabled(plugins: seq<PluginDetail>) {
    exists i :: 0 <= i < |plugins| && plugins[i].enable
  }

  /** The Chain-of-Thought checkbox is disabled exactly while a plugin is enabled. */
  predicate CotCheckboxDisabled(plugins: seq<PluginDetail>) {
    AnyEnabled(plugins)
  }

  /** `handlePluginToggle(id)`. */
  function TogglePlugin(plugins: seq<PluginDetail>, id: int): (r: seq<PluginDetail>)
    ensures |r| == |plugins|
    ensures forall i :: 0 <= i < |r| ==> r[i].id == plugins[i].id && r[i].toolName == plugins[i].toolName
  {
    seq(|plugins|, i requires 0 <= i < |plugins| =>
      var p := plugins[i];
      if p.id == id then p.(enable := !p.enable) else p)
  }

  /** Only the items with the toggled id change, and they change only their flag. */
  lemma TogglePluginFlips(plugins: seq<PluginDetail>, id: int, i: int)
    requires 0 <= i < |plugins|
    ensures TogglePlugin(plugins, id)[i].enable == (plugins[i].enable != (plugins[i].id == id))
    ensures plugins[i].id != id ==> TogglePlugin(plugins, id)[i] == plugins[i]
  {
  }

  /** Toggling the same plugin twice restores the list. */
  lemma TogglePluginTwice(plugins: seq<PluginDetail>, id: int)
    ensures TogglePlugin(TogglePlugin(plugins, id), id) == plugins
  {
    var once := TogglePlugin(plugins, id);
    var twice := TogglePlugin(once, id);
    assert forall i :: 0 <= i < |plugins| ==> twice[i] == plugins[i];
  }

  /** Toggling an id that no item has changes nothing. */
  lemma ToggleUnknownPlugin(plugins: seq<PluginDetail>, id: int)
    requires forall i :: 0 <= i < |plugins| ==> plugins[i].id != id
    ensures TogglePlugin(plugins, id) == plugins
  {
  }

  /** The panel state the effect reads and writes. */
  datatype Panel = Panel(plugins: seq<PluginDetail>, useCot: bool)

  /**
   * The `useEffect` on `pluginDetail`: an empty list becomes the registry
   * plugins; a list with an enabled plugin switches Chain-of-Thought off.
   * Both tests read the list the effect was run with.
   */
  function Effect(p: Panel): (r: Panel)
    ensures p.plugins != [] ==> r.plugins == p.plugins
    ensures r.plugins != []
    ensures r.useCot ==> p.useCot
  {
    Panel(if p.plugins == [] then InitialPlugins() else p.plugins,
          if AnyEnabled(p.plugins) then false else p.useCot)
  }

  /** After the effect, Chain-of-Thought is off whenever a plugin is enabled. */
  lemma EffectExcludesCotWithPlugins(p: Panel)
    ensures AnyEnabled(Effect(p).plugins) ==> !Effect(p).useCot
  {
    if p.plugins == [] {
      var init := InitialPlugins();
      assert !AnyEnabled(init);
    }
  }

  /** Without an enabled plugin the effect leaves the Chain-of-Thought flag alone. */
  lemma EffectKeepsCotWithoutPlugins(p: Panel)
    requires !AnyEnabled(p.plugins)
    ensures Effect(p).useCot == p.useCot
  {
  }

  /** Re-running the effect on its own result changes nothing. */
  lemma EffectSettles(p: Panel)
    ensures Effect(Effect(p)) == Effect(p)
  {
    EffectExcludesCotWithPlugins(p);
  }

  // ---------------------------------------------------------------------------
  // Files

  /** `files.filter((f) => f !== path)`. */
  function Remove(files: seq<string>, path: string): seq<string>
    decreases |files|
  {
    if |files| == 0 then []
    else (if files[0] == path then [] else [files[0]]) + Remove(files[1..], path)
  }

  /** `handleFileToggle(path)`. */
  function ToggleFile(selected: seq<string>, path: string): seq<string> {
    if path in selected then Remove(selected, path) else selected + [path]
  }

  predicate NoDuplicates(s: seq<string>) {
    forall i, j :: 0 <= i < j < |s| ==> s[i] != s[j]
  }

  lemma {:induction false} RemoveMembers(files: seq<string>, path: string, f: string)
    ensures f in Remove(files, path) <==> f in files && f != path
    decreases |files|
  {
    if |files| > 0 {
      RemoveMembers(files[1..], path, f);
      assert files == [files[0]] + files[1..];
    }
  }

  lemma {:induction false} RemoveAbsent(files: seq<string>, path: string)
    requires path !in files
    ensures Remove(files, path) == files
    decreases |files|
  {
    if |files| > 0 {
      RemoveAbsent(files[1..], path);
      assert files == [files[0]] + files[1..];
    }
  }

  lemma {:induction false} RemoveKeepsNoDuplicates(files: seq<string>, path: string)
    requires NoDuplicates(files)
    ensures NoDuplicates(Remove(files, path))
    decreases |files|
  {
    if |files| > 0 {
      var tail := files[1..];
      assert NoDuplicates(tail) by {
        forall i, j | 0 <= i < j < |tail| ensures tail[i] != tail[j] {
          assert tail[i] == files[i + 1] && tail[j] == files[j + 1];
        }
      }
      RemoveKeepsNoDuplicates(tail, path);
      if files[0] != path {
        var rest := Remove(tail, path);
        assert files[0] !in tail by {
          forall j | 0 <= j < |tail| ensures tail[j] != files[0] {
            assert tail[j] == files[j + 1];
          }
        }
        RemoveMembers(tail, path, files[0]);
        var r := [files[0]] + rest;
        forall i, j | 0 <= i < j < |r| ensures r[i] != r[j] {
          if i == 0 {
            assert r[j] == rest[j - 1];
            assert r[j] in rest;
          } else {
            assert r[i] == rest[i - 1] && r[j] == rest[j - 1];
          }
        }
      }
    }
  }

  /** The toggled path's membership flips; every other path keeps its own. */
  lemma ToggleFileMembership(selected: seq<string>, path: string, f: string)
    ensures path in ToggleFile(selected, path) <==> path !in selected
    ensures f != path ==> (f in ToggleFile(selected, path) <==> f in selected)
  {
    RemoveMembers(selected, path, path);
    RemoveMembers(selected, path, f);
  }

  /** A selection without duplicates stays without duplicates. */
  lemma ToggleFileKeepsNoDuplicates(selected: seq<string>, path: string)
    requires NoDuplicates(selected)
    ensures NoDuplicates(ToggleFile(selected, path))
  {
    if path in selected {
      RemoveKeepsNoDuplicates(selected, path);
    }
  }

  /** Selecting a path and deselecting it again restores the selection. */
  lemma ToggleAbsentFileTwice(selected: seq<string>, path: string)
    requires path !in selected
    ensures ToggleFile(ToggleFile(selected, path), path) == selected
  {
    RemoveAbsent(selected, path);
    RemoveSnoc(selected, path, path);
  }

  lemma {:induction false} RemoveSnoc(files: seq<string>, x: string, path: string)
    ensures Remove(files + [x], path) == Remove(files, path) + (if x == path then [] else [x])
    decreases |files|
  {
    if |files| == 0 {
      assert files + [x] == [x];
      assert [x][1..] == [];
    } else {
      assert (files + [x])[1..] == files[1..] + [x];
      RemoveSnoc(files[1..], x, path);
    }
  }

  // ---------------------------------------------------------------------------
  // File names

  /** `filePath.split("/").pop() || filePath`. */
  function GetFileName(path: string): (name: string)
    ensures IsSuffix(name, path)
    ensures name == path || '/' !in name
    ensures name == "" ==> path == ""
  {
    var last := AfterLast(path, '/');
    if last != "" then last else path
  }

  /** A path without `/` is its own name. */
  lemma FileNameOfBareName(path: string)
    requires '/' !in path
    ensures GetFileName(path) == path
  {
  }

  /** The name after a directory prefix, when it is non-empty and has no `/`. */
  lemma FileNameAfterDirectory(dir: string, name: string)
    requires name != "" && '/' !in name
    ensures GetFileName(dir + "/" + name) == name
  {
    var path := dir + "/" + name;
    var last := AfterLast(path, '/');
    assert path[|path| - |name| - 1] == '/';
    assert last == path[|path| - |last|..];
    assert name == path[|path| - |name|..];
  }

  /** A path from the file listing shows the uploaded file's own name. */
  lemma ListedFileShowsItsName(name: string)
    requires name != "" && '/' !in name && '\\' !in name
    ensures GetFileName(Files.ListedPath(name)) == name
  {
    Files.PlainNameListedVerbatim(name);
    assert Files.ListedPrefix + name == Files.UploadDir + "/" + name;
    FileNameAfterDirectory(Files.UploadDir, name);
  }
}
