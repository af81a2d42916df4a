/**
 * The plugin registry of Engine/PluginEngine.swift: the ordered list of
 * known plugins, the plugin in use and the remote-loading flag, with the
 * operations that add, remove, load and use plugins.
 */
module Engine {
  import opened Wrappers
  import opened Package
  import opened Types

  // ---------------------------------------------------------------------
  // The plugin list as a value
  // ---------------------------------------------------------------------

  /** No two plugins of the list share a bundle identifier. */
  predicate DistinctBundleIds(ps: seq<Plugin>) {
    forall i, j :: 0 <= i < j < |ps| ==> ps[i].bundleId != ps[j].bundleId
  }

  /** Some plugin of the list carries bundle identifier `id`. */
  predicate HasBundleId(ps: seq<Plugin>, id: string) {
    exists i :: 0 <= i < |ps| && ps[i].bundleId == id
  }

  /** Some plugin of the list carries identity `id`. */
  predicate HasId(ps: seq<Plugin>, id: Uuid) {
    exists i :: 0 <= i < |ps| && ps[i].id == id
  }

  /** The closures the engine searches with. */
  function ById(id: Uuid): Plugin -> bool {
    (p: Plugin) => p.id == id
  }

  function ByBundleId(id: string): Plugin -> bool {
    (p: Plugin) => p.bundleId == id
  }

  /** `first(where:)` / `firstIndex(where:)`: the index of the first plugin that matches. */
  function FirstIndex(ps: seq<Plugin>, matches: Plugin -> bool): (r: Option<nat>)
    ensures r.Some? ==> r.value < |ps| && matches(ps[r.value])
    ensures r.Some? ==> forall j :: 0 <= j < r.value ==> !matches(ps[j])
    ensures r.None? ==> forall j :: 0 <= j < |ps| ==> !matches(ps[j])
  {
    if ps == [] then None
    else if matches(ps[0]) then Some(0)
    else match FirstIndex(ps[1..], matches)
      case None => None
      case Some(i) => Some(i + 1)
  }

  /** The list after `addPlugin`: unchanged when the bundle identifier is known, else extended at the end. */
  function AppendUnique(ps: seq<Plugin>, p: Plugin): seq<Plugin> {
    if FirstIndex(ps, ByBundleId(p.bundleId)).Some? then ps else ps + [p]
  }

  /** The list after `removeAll { bundleIdentifier == id }`. */
  function RemoveAllWithBundleId(ps: seq<Plugin>, id: string): (r: seq<Plugin>)
    ensures |r| <= |ps|
    ensures forall q :: q in r <==> q in ps && q.bundleId != id
  {
    if ps == [] then []
    else if ps[0].bundleId == id then RemoveAllWithBundleId(ps[1..], id)
    else [ps[0]] + RemoveAllWithBundleId(ps[1..], id)
  }

  /** The list after `remove(at: i)`. */
  function RemoveAt(ps: seq<Plugin>, i: nat): (r: seq<Plugin>)
    requires i < |ps|
    ensures |r| == |ps| - 1
    ensures forall j :: 0 <= j < i ==> r[j] == ps[j]
    ensures forall j :: i <= j < |r| ==> r[j] == ps[j + 1]
  {
    ps[..i] + ps[i + 1..]
  }

  lemma FirstIndexFindsBundleId(ps: seq<Plugin>, id: string)
    ensures FirstIndex(ps, ByBundleId(id)).Some? <==> HasBundleId(ps, id)
  {
    var f := FirstIndex(ps, ByBundleId(id));
    if HasBundleId(ps, id) {
      var i :| 0 <= i < |ps| && ps[i].bundleId == id;
      assert ByBundleId(id)(ps[i]);
    }
    if f.Some? {
      assert ByBundleId(id)(ps[f.value]);
      assert ps[f.value].bundleId == id;
    }
  }

  /** `addPlugin` keeps the bundle identifiers distinct and leaves the new one present. */
  lemma AppendUniqueKeepsDistinct(ps: seq<Plugin>, p: Plugin)
    requires DistinctBundleIds(ps)
    ensures DistinctBundleIds(AppendUnique(ps, p))
    ensures HasBundleId(AppendUnique(ps, p), p.bundleId)
  {
    FirstIndexFindsBundleId(ps, p.bundleId);
    var r := AppendUnique(ps, p);
    if !HasBundleId(ps, p.bundleId) {
      assert r[|ps|] == p;
    }
  }

  /** `addPlugin` twice with the same plugin is `addPlugin` once. */
  lemma AppendUniqueIdempotent(ps: seq<Plugin>, p: Plugin)
    ensures AppendUnique(AppendUnique(ps, p), p) == AppendUnique(ps, p)
  {
    var r := AppendUnique(ps, p);
    FirstIndexFindsBundleId(ps, p.bundleId);
    FirstIndexFindsBundleId(r, p.bundleId);
    if !HasBundleId(ps, p.bundleId) {
      assert r[|ps|] == p;
    }
  }

  /** `removeAll` works piecewise, so the plugins it keeps stay in their order. */
  lemma {:induction false} RemoveAllSplits(a: seq<Plugin>, b: seq<Plugin>, id: string)
    ensures RemoveAllWithBundleId(a + b, id) == RemoveAllWithBundleId(a, id) + RemoveAllWithBundleId(b, id)
  {
    if a == [] {
      assert a + b == b;
    } else {
      assert (a + b)[1..] == a[1..] + b;
      RemoveAllSplits(a[1..], b, id);
    }
  }

  /** With no plugin carrying `id`, `removeAll` changes nothing. */
  lemma {:induction false} RemoveAllAbsent(ps: seq<Plugin>, id: string)
    requires !HasBundleId(ps, id)
    ensures RemoveAllWithBundleId(ps, id) == ps
  {
    if ps != [] {
      assert !HasBundleId(ps[1..], id) by {
        forall i | 0 <= i < |ps| - 1 ensures ps[1..][i].bundleId != id {
          assert ps[1..][i] == ps[i + 1];
        }
      }
      RemoveAllAbsent(ps[1..], id);
      assert [ps[0]] + ps[1..] == ps;
    }
  }

  /**
   * On a list with distinct bundle identifiers, removing every match and
   * removing the first match are the same: the two `removePlugin`s agree
   * on the list.
   */
  lemma RemoveAllIsRemoveFirst(ps: seq<Plugin>, id: string, i: nat)
    requires DistinctBundleIds(ps)
    requires FirstIndex(ps, ByBundleId(id)) == Some(i)
    ensures RemoveAllWithBundleId(ps, id) == RemoveAt(ps, i)
  {
    assert ps == ps[..i] + ([ps[i]] + ps[i + 1..]);
    RemoveAllSplits(ps[..i], [ps[i]] + ps[i + 1..], id);
    RemoveAllSplits([ps[i]], ps[i + 1..], id);
    assert !HasBundleId(ps[..i], id) by {
      forall j | 0 <= j < i ensures ps[..i][j].bundleId != id {
        assert !ByBundleId(id)(ps[j]);
      }
    }
    var tail := ps[i + 1..];
    assert !HasBundleId(tail, id) by {
      forall j | 0 <= j < |tail| ensures tail[j].bundleId != id {
        assert tail[j] == ps[i + 1 + j];
        assert ByBundleId(id)(ps[i]);
      }
    }
    RemoveAllAbsent(ps[..i], id);
    RemoveAllAbsent(ps[i + 1..], id);
    assert RemoveAllWithBundleId([ps[i]], id) == [];
  }

  /** Removing one plugin keeps the bundle identifiers distinct. */
  lemma RemoveAtKeepsDistinct(ps: seq<Plugin>, i: nat)
    requires DistinctBundleIds(ps) && i < |ps|
    ensures DistinctBundleIds(RemoveAt(ps, i))
  {
    var r := RemoveAt(ps, i);
    forall a, b | 0 <= a < b < |r| ensures r[a].bundleId != r[b].bundleId {
      var a' := if a < i then a else a + 1;
      var b' := if b < i then b else b + 1;
      assert r[a] == ps[a'] && r[b] == ps[b'];
    }
  }

  /** `removeAll` keeps the bundle identifiers distinct. */
  lemma {:induction false} RemoveAllKeepsDistinct(ps: seq<Plugin>, id: string)
    requires DistinctBundleIds(ps)
    ensures DistinctBundleIds(RemoveAllWithBundleId(ps, id))
  {
    if ps != [] {
      assert DistinctBundleIds(ps[1..]) by {
        forall a, b | 0 <= a < b < |ps| - 1 ensures ps[1..][a].bundleId != ps[1..][b].bundleId {
          assert ps[1..][a] == ps[a + 1] && ps[1..][b] == ps[b + 1];
        }
      }
      RemoveAllKeepsDistinct(ps[1..], id);
      var rest := RemoveAllWithBundleId(ps[1..], id);
      if ps[0].bundleId != id {
        forall q | q in rest ensures q.bundleId != ps[0].bundleId {
          var k :| 1 <= k < |ps| && ps[k] == q;
          assert ps[k].bundleId != ps[0].bundleId;
        }
        var r := [ps[0]] + rest;
        forall a, b | 0 <= a < b < |r| ensures r[a].bundleId != r[b].bundleId {
          if a == 0 {
            assert r[b] == rest[b - 1] && rest[b - 1] in rest;
          } else {
            assert r[a] == rest[a - 1] && r[b] == rest[b - 1];
          }
        }
      }
    }
  }

  lemma FirstIndexFindsId(ps: seq<Plugin>, id: Uuid)
    ensures FirstIndex(ps, ById(id)).Some? <==> HasId(ps, id)
  {
    var f := FirstIndex(ps, ById(id));
    if HasId(ps, id) {
      var i :| 0 <= i < |ps| && ps[i].id == id;
      assert ById(id)(ps[i]);
    }
    if f.Some? {
      assert ById(id)(ps[f.value]);
      assert ps[f.value].id == id;
    }
  }

  // ---------------------------------------------------------------------
  // The engine object
  // ---------------------------------------------------------------------

  /**
   * What the engine does outside its own fields: the confirmation and
   * alert dialogs, the native loader, the builder, the plugin hooks and the
   * remote fetch (with the value of `isLoadingRemote` while it runs).
   */
  datatype Event =
    | ConfirmationAsked(path: string)  // the dialog was shown, whatever the user answered
    | Alerted
    | LoaderCalled(path: string)
    | Built(plugin: Plugin)
    | SetupCalled(plugin: Plugin)
    | OnUseCalled(plugin: Plugin)
    | FetchStarted(url: string, version: Version, busy: bool)

  /** What `load(url:version:)` and `update` return: the fetched repository and the plugin loaded from it. */
  datatype Loaded = Loaded(repo: PluginRepo, plugin: Option<Plugin>)

  class PluginEngine {
    var plugins: seq<Plugin>
    var currentPlugin: Option<Plugin>
    var isLoadingRemote: bool
    ghost var log: seq<Event>

    /** `addPlugin` is the only way in, so no two plugins share a bundle identifier. */
    ghost predicate Valid()
      reads this
    {
      DistinctBundleIds(plugins)
    }

    constructor ()
      ensures Valid()
      ensures plugins == [] && currentPlugin == None && !isLoadingRemote && log == []
    {
      plugins := [];
      currentPlugin := None;
      isLoadingRemote := false;
      log := [];
    }

    /** `addPlugin(plugin:)`: appends `p` unless a plugin with its bundle identifier is already known. */
    method AddPlugin(p: Plugin)
      requires Valid()
      modifies this
      ensures Valid()
      ensures plugins == AppendUnique(old(plugins), p)
      ensures HasBundleId(plugins, p.bundleId)
      ensures HasBundleId(old(plugins), p.bundleId) ==> plugins == old(plugins)
      ensures !HasBundleId(old(plugins), p.bundleId) ==> plugins == old(plugins) + [p]
      ensures currentPlugin == old(currentPlugin) && isLoadingRemote == old(isLoadingRemote) && log == old(log)
    {
      AppendUniqueKeepsDistinct(plugins, p);
      FirstIndexFindsBundleId(plugins, p.bundleId);
      if FirstIndex(plugins, ByBundleId(p.bundleId)).Some? {
        return;
      }
      plugins := plugins + [p];
    }

    /** `addPluginBuilder(builder:)`: the builder yields `built`, which is then added. */
    method AddPluginBuilder(built: Plugin)
      requires Valid()
      modifies this
      ensures Valid()
      ensures plugins == AppendUnique(old(plugins), built)
      ensures currentPlugin == old(currentPlugin) && isLoadingRemote == old(isLoadingRemote)
      ensures log == old(log) + [Built(built)]
    {
      log := log + [Built(built)];
      AddPlugin(built);
    }

    /**
     * `removePlugin(plugin:)`: forgets the plugin in use when it has `p`'s
     * bundle identifier, and drops every plugin with that identifier.
     */
    method RemovePlugin(p: Plugin)
      requires Valid()
      modifies this
      ensures Valid()
      ensures plugins == RemoveAllWithBundleId(old(plugins), p.bundleId)
      ensures !HasBundleId(plugins, p.bundleId)
      ensures old(currentPlugin).Some? && old(currentPlugin).value.bundleId == p.bundleId ==> currentPlugin == None
      ensures !(old(currentPlugin).Some? && old(currentPlugin).value.bundleId == p.bundleId) ==> currentPlugin == old(currentPlugin)
      ensures isLoadingRemote == old(isLoadingRemote) && log == old(log)
    {
      if currentPlugin.Some? && currentPlugin.value.bundleId == p.bundleId {
        currentPlugin := None;
      }
      RemoveAllKeepsDistinct(plugins, p.bundleId);
      plugins := RemoveAllWithBundleId(plugins, p.bundleId);
    }

    /**
     * `removePlugin(bundleId:)`: throws when no plugin has the identifier,
     * otherwise removes the first one, which on a valid engine is removing
     * them all. The plugin in use is left as it is.
     */
    method RemovePluginByBundleId(id: string) returns (r: Outcome<Error>)
      requires Valid()
      modifies this
      ensures Valid()
      ensures r.Fail? <==> !HasBundleId(old(plugins), id)
      ensures r.Fail? ==> r.error == PluginFailure(PluginNotFoundWithBundleId(id)) && plugins == old(plugins)
      ensures r.Pass? ==> plugins == RemoveAllWithBundleId(old(plugins), id) && |plugins| == |old(plugins)| - 1
      ensures !HasBundleId(plugins, id)
      ensures currentPlugin == old(currentPlugin) && isLoadingRemote == old(isLoadingRemote) && log == old(log)
    {
      FirstIndexFindsBundleId(plugins, id);
      match FirstIndex(plugins, ByBundleId(id)) {
        case None =>
          return Fail(PluginFailure(PluginNotFoundWithBundleId(id)));
        case Some(i) =>
          RemoveAllIsRemoveFirst(plugins, id, i);
          RemoveAtKeepsDistinct(plugins, i);
          RemoveAllKeepsDistinct(plugins, id);
          plugins := RemoveAt(plugins, i);
          return Pass;
      }
    }

    /**
     * `load(path:autoConfirm:autoAdd:)`. Unless `autoConfirm`, the user is
     * asked and `userConfirms` is the answer; a refusal raises an alert and
     * yields nothing. Otherwise the native loader yields `loaded`, which is
     * added when `autoAdd` holds and returned.
     */
    method Load(path: string, autoConfirm: bool, autoAdd: bool, userConfirms: bool, loaded: Plugin)
      returns (r: Option<Plugin>)
      requires Valid()
      modifies this
      ensures Valid()
      ensures currentPlugin == old(currentPlugin) && isLoadingRemote == old(isLoadingRemote)
      ensures !autoConfirm && !userConfirms ==>
        r == None && plugins == old(plugins) && log == old(log) + [ConfirmationAsked(path), Alerted]
      ensures autoConfirm || userConfirms ==>
        r == Some(loaded) &&
        plugins == (if autoAdd then AppendUnique(old(plugins), loaded) else old(plugins)) &&
        log == old(log) + (if autoConfirm then [] else [ConfirmationAsked(path)]) + [LoaderCalled(path)]
    {
      if !autoConfirm {
        log := log + [ConfirmationAsked(path)];
        if !userConfirms {
          log := log + [Alerted];
          return None;
        }
      }
      log := log + [LoaderCalled(path)];
      if autoAdd {
        AddPlugin(loaded);
      }
      return Some(loaded);
    }

    /**
     * `load(url:version:)`. `urlIsValid` is whether `URL(string:)` accepts
     * `url`; `fetched` is what the remote loader returns for it. The fetched
     * library is loaded with confirmation and is never added to the list.
     */
    method LoadRemote(url: string, version: Version, urlIsValid: bool, fetched: Result<PluginRepo, Error>,
                      userConfirms: bool, loaded: Plugin)
      returns (r: Result<Loaded, Error>)
      requires Valid()
      modifies this
      ensures Valid()
      ensures !isLoadingRemote
      ensures plugins == old(plugins) && currentPlugin == old(currentPlugin)
      ensures !urlIsValid ==> r == Failure(RemoteFailure(InvalidUrl(url))) && log == old(log)
      ensures urlIsValid && fetched.Failure? ==>
        r == Failure(fetched.error) && log == old(log) + [FetchStarted(url, version, true)]
      ensures urlIsValid && fetched.Success? ==>
        r == Success(Loaded(fetched.value, if userConfirms then Some(loaded) else None)) &&
        log == old(log) + [FetchStarted(url, version, true), ConfirmationAsked(fetched.value.localPosition)] +
               (if userConfirms then [LoaderCalled(fetched.value.localPosition)] else [Alerted])
    {
      isLoadingRemote := true;
      if !urlIsValid {
        isLoadingRemote := false;
        return Failure(RemoteFailure(InvalidUrl(url)));
      }
      log := log + [FetchStarted(url, version, isLoadingRemote)];
      match fetched {
        case Failure(e) =>
          isLoadingRemote := false;
          return Failure(e);
        case Success(repo) =>
          var plugin := Load(repo.localPosition, false, false, userConfirms, loaded);
          isLoadingRemote := false;
          return Success(Loaded(repo, plugin));
      }
    }

    /**
     * `update(bundleId:url:version:)`: as `load(url:version:)`, except that
     * after a successful fetch the plugin with `bundleId` is removed first,
     * and its absence is an error.
     */
    method Update(bundleId: string, url: string, version: Version, urlIsValid: bool,
                  fetched: Result<PluginRepo, Error>, userConfirms: bool, loaded: Plugin)
      returns (r: Result<Loaded, Error>)
      requires Valid()
      modifies this
      ensures Valid()
      ensures !isLoadingRemote
      ensures currentPlugin == old(currentPlugin)
      ensures !urlIsValid ==>
        r == Failure(RemoteFailure(InvalidUrl(url))) && plugins == old(plugins) && log == old(log)
      ensures urlIsValid && fetched.Failure? ==>
        r == Failure(fetched.error) && plugins == old(plugins) && log == old(log) + [FetchStarted(url, version, true)]
      ensures urlIsValid && fetched.Success? && !HasBundleId(old(plugins), bundleId) ==>
        r == Failure(PluginFailure(PluginNotFoundWithBundleId(bundleId))) && plugins == old(plugins) &&
        log == old(log) + [FetchStarted(url, version, true)]
      ensures urlIsValid && fetched.Success? && HasBundleId(old(plugins), bundleId) ==>
        r == Success(Loaded(fetched.value, if userConfirms then Some(loaded) else None)) &&
        plugins == RemoveAllWithBundleId(old(plugins), bundleId) &&
        log == old(log) + [FetchStarted(url, version, true), ConfirmationAsked(fetched.value.localPosition)] +
               (if userConfirms then [LoaderCalled(fetched.value.localPosition)] else [Alerted])
      ensures r.Success? ==> !HasBundleId(plugins, bundleId)
    {
      isLoadingRemote := true;
      if !urlIsValid {
        isLoadingRemote := false;
        return Failure(RemoteFailure(InvalidUrl(url)));
      }
      log := log + [FetchStarted(url, version, isLoadingRemote)];
      match fetched {
        case Failure(e) =>
          isLoadingRemote := false;
          return Failure(e);
        case Success(repo) =>
          var removed := RemovePluginByBundleId(bundleId);
          if removed.Fail? {
            isLoadingRemote := false;
            return Failure(removed.error);
          }
          var plugin := Load(repo.localPosition, false, false, userConfirms, loaded);
          isLoadingRemote := false;
          return Success(Loaded(repo, plugin));
      }
    }

    /** `use(plugin:)`: runs the plugin's `setup` and `onUse` hooks and makes it the plugin in use. */
    method Use(p: Plugin)
      modifies this
      ensures currentPlugin == Some(p)
      ensures log == old(log) + [SetupCalled(p), OnUseCalled(p)]
      ensures plugins == old(plugins) && isLoadingRemote == old(isLoadingRemote)
    {
      log := log + [SetupCalled(p), OnUseCalled(p)];
      currentPlugin := Some(p);
    }

    /** `use(id:)`: uses the first plugin with identity `id`, or throws when there is none. */
    method UseId(id: Uuid) returns (r: Outcome<Error>)
      modifies this
      ensures r.Fail? <==> !HasId(plugins, id)
      ensures r.Fail? ==>
        r.error == PluginFailure(PluginNotFoundWithId(id)) && currentPlugin == old(currentPlugin) && log == old(log)
      ensures r.Pass? ==>
        currentPlugin.Some? && currentPlugin.value.id == id && currentPlugin.value in plugins &&
        currentPlugin == Some(plugins[FirstIndex(plugins, ById(id)).value]) &&
        log == old(log) + [SetupCalled(currentPlugin.value), OnUseCalled(currentPlugin.value)]
      ensures plugins == old(plugins) && isLoadingRemote == old(isLoadingRemote)
    {
      FirstIndexFindsId(plugins, id);
      match FirstIndex(plugins, ById(id)) {
        case None =>
          return Fail(PluginFailure(PluginNotFoundWithId(id)));
        case Some(i) =>
          assert ById(id)(plugins[i]);
          Use(plugins[i]);
          return Pass;
      }
    }

    /** `use(plugin name:)`: uses the first plugin whose bundle identifier is `name`, or throws when there is none. */
    method UseName(name: string) returns (r: Outcome<Error>)
      modifies this
      ensures r.Fail? <==> !HasBundleId(plugins, name)
      ensures r.Fail? ==>
        r.error == PluginFailure(PluginNotFoundWithName(name)) && currentPlugin == old(currentPlugin) && log == old(log)
      ensures r.Pass? ==>
        currentPlugin.Some? && currentPlugin.value.bundleId == name && currentPlugin.value in plugins &&
        currentPlugin == Some(plugins[FirstIndex(plugins, ByBundleId(name)).value]) &&
        log == old(log) + [SetupCalled(currentPlugin.value), OnUseCalled(currentPlugin.value)]
      ensures plugins == old(plugins) && isLoadingRemote == old(isLoadingRemote)
    {
      FirstIndexFindsBundleId(plugins, name);
      match FirstIndex(plugins, ByBundleId(name)) {
        case None =>
          return Fail(PluginFailure(PluginNotFoundWithName(name)));
        case Some(i) =>
          assert ByBundleId(name)(plugins[i]);
          Use(plugins[i]);
          return Pass;
      }
    }
  }

  // ---------------------------------------------------------------------
  // Engine sessions
  // ---------------------------------------------------------------------

  /**
   * Three loads of the same path through the confirmation dialog, the
   * first two confirmed and the third refused, of plugins that share a
   * bundle identifier: three confirmations and one alert, and a single
   * plugin in the list, since the second is a duplicate.
   */
  method RepeatedLoadsOfOneBundle(path: string, first: Plugin, second: Plugin, third: Plugin)
    returns (listed: seq<Plugin>, ghost events: seq<Event>)
    requires first.bundleId == second.bundleId
    ensures listed == [first]
    ensures events == [ConfirmationAsked(path), LoaderCalled(path), ConfirmationAsked(path), LoaderCalled(path), ConfirmationAsked(path), Alerted]
  {
    var engine := new PluginEngine();
    var r1 := engine.Load(path, false, true, true, first);
    var r2 := engine.Load(path, false, true, true, second);
    var r3 := engine.Load(path, false, true, false, third);
    listed := engine.plugins;
    events := engine.log;
  }

  /**
   * Two plugins with one bundle identifier but different identities: the
   * second is never listed, so using it by name uses the first and using it
   * by its identity throws.
   */
  method SharedBundleIdentifier(a: Plugin, b: Plugin)
    returns (byName: Outcome<Error>, current: Option<Plugin>, byId: Outcome<Error>)
    requires a.bundleId == b.bundleId && a.id != b.id
    ensures byName == Pass && current == Some(a)
    ensures byId == Fail(PluginFailure(PluginNotFoundWithId(b.id)))
  {
    var engine := new PluginEngine();
    engine.AddPlugin(a);
    engine.AddPlugin(b);
    assert engine.plugins == [a];
    byName := engine.UseName(a.bundleId);
    current := engine.currentPlugin;
    byId := engine.UseId(b.id);
  }

  /**
   * Removing the plugin in use: by plugin, the engine forgets it; by bundle
   * identifier, the engine keeps using a plugin that is no longer listed.
   */
  method RemovingThePluginInUse(p: Plugin)
    returns (removed: Outcome<Error>, afterByBundleId: Option<Plugin>, afterByPlugin: Option<Plugin>, listed: seq<Plugin>)
    ensures removed == Pass && listed == []
    ensures afterByBundleId == Some(p)
    ensures afterByPlugin == None
  {
    var engine := new PluginEngine();
    engine.AddPlugin(p);
    engine.Use(p);
    assert HasBundleId(engine.plugins, p.bundleId) by {
      assert engine.plugins[0] == p;
    }
    removed := engine.RemovePluginByBundleId(p.bundleId);
    afterByBundleId := engine.currentPlugin;
    listed := engine.plugins;

    var other := new PluginEngine();
    other.AddPlugin(p);
    other.Use(p);
    other.RemovePlugin(p);
    afterByPlugin := other.currentPlugin;
  }
}
