/**
 * The plugin service (src/core/core.plugin.js): an ordered registry of plugin
 * objects without duplicates, and `notify`, which calls one extension hook on
 * every registered plugin in registration order and stops at the first plugin
 * that answers exactly `false`.
 *
 * A plugin is an object compared by identity. It is modelled as an object
 * that holds, for each extension it implements as a function, the value that
 * hook returns when called.
 */
module Plugins {
  import opened Js

  class Plugin {
    const hooks: map<string, Value>

    constructor(hooks: map<string, Value>)
      ensures this.hooks == hooks
    {
      this.hooks := hooks;
    }
  }

  /** `typeof plugin[extension] === 'function'`. */
  predicate Implements(p: Plugin, extension: string)
  {
    extension in p.hooks
  }

  /** The plugin's hook for `extension` returns `=== false`. */
  predicate Vetoes(p: Plugin, extension: string)
  {
    extension in p.hooks && StrictEquals(p.hooks[extension], Bool(false))
  }

  predicate Distinct<T(==)>(s: seq<T>)
  {
    forall i, j :: 0 <= i < j < |s| ==> s[i] != s[j]
  }

  /** DistinctSize without its precondition, for callers that cannot test Distinct. */
  lemma DistinctSizeWhenDistinct<T>(s: seq<T>)
    ensures Distinct(s) ==> |set x | x in s| == |s|
  {
    if Distinct(s) {
      DistinctSize(s);
    }
  }

  /** A list without duplicates has as many members as entries. */
  lemma {:induction false} DistinctSize<T>(s: seq<T>)
    requires Distinct(s)
    ensures |set x | x in s| == |s|
  {
    if |s| > 0 {
      var init := s[..|s| - 1];
      DistinctSize(init);
      assert (set x | x in s) == (set x | x in init) + {s[|s| - 1]};
      assert s[|s| - 1] !in init;
    }
  }

  // ----- register -----

  /** The registry after `register(added)`: each plugin is pushed unless already present. */
  function Registered(plugins: seq<Plugin>, added: seq<Plugin>): seq<Plugin>
  {
    if |added| == 0 then plugins
    else
      var before := Registered(plugins, added[..|added| - 1]);
      var p := added[|added| - 1];
      if p in before then before else before + [p]
  }

  /**
   * Registering keeps the registry free of duplicates, keeps the plugins already
   * there at the front in their order, and afterwards holds exactly the old
   * plugins and the added ones.
   */
  lemma {:induction false} RegisteredProperties(plugins: seq<Plugin>, added: seq<Plugin>)
    requires Distinct(plugins)
    ensures var r := Registered(plugins, added);
      Distinct(r) && |plugins| <= |r| && r[..|plugins|] == plugins &&
      forall p :: p in r <==> p in plugins || p in added
  {
    if |added| > 0 {
      var init := added[..|added| - 1];
      RegisteredProperties(plugins, init);
      var before := Registered(plugins, init);
      var p := added[|added| - 1];
      assert added == init + [p];
      if p !in before {
        assert (before + [p])[..|plugins|] == before[..|plugins|];
      }
    }
  }

  // ----- unregister -----

  /** The plugins of `s` that are not in `gone`, in their order. */
  function Without(s: seq<Plugin>, gone: set<Plugin>): seq<Plugin>
  {
    if |s| == 0 then []
    else
      var p := s[|s| - 1];
      Without(s[..|s| - 1], gone) + (if p in gone then [] else [p])
  }

  lemma {:induction false} WithoutMembers(s: seq<Plugin>, gone: set<Plugin>)
    ensures forall p :: p in Without(s, gone) <==> p in s && p !in gone
  {
    if |s| > 0 {
      WithoutMembers(s[..|s| - 1], gone);
      assert s == s[..|s| - 1] + [s[|s| - 1]];
    }
  }

  lemma {:induction false} WithoutDistinct(s: seq<Plugin>, gone: set<Plugin>)
    requires Distinct(s)
    ensures Distinct(Without(s, gone))
  {
    if |s| > 0 {
      var init := s[..|s| - 1];
      WithoutDistinct(init, gone);
      WithoutMembers(init, gone);
      assert s[|s| - 1] !in init;
    }
  }

  lemma {:induction false} WithoutConcat(a: seq<Plugin>, b: seq<Plugin>, gone: set<Plugin>)
    ensures Without(a + b, gone) == Without(a, gone) + Without(b, gone)
  {
    if |b| > 0 {
      var init := b[..|b| - 1];
      var last := b[|b| - 1];
      var tail := if last in gone then [] else [last];
      WithoutConcat(a, init, gone);
      assert (a + b)[..|a + b| - 1] == a + init;
      assert (a + b)[|a + b| - 1] == last;
      assert Without(a + b, gone) == Without(a + init, gone) + tail;
      assert Without(b, gone) == Without(init, gone) + tail;
    } else {
      assert a + b == a;
    }
  }

  lemma {:induction false} WithoutNothing(s: seq<Plugin>, gone: set<Plugin>)
    requires forall p :: p in s ==> p !in gone
    ensures Without(s, gone) == s
  {
    if |s| > 0 {
      WithoutNothing(s[..|s| - 1], gone);
    }
  }

  lemma {:induction false} WithoutTwice(s: seq<Plugin>, a: set<Plugin>, b: set<Plugin>)
    ensures Without(Without(s, a), b) == Without(s, a + b)
  {
    if |s| > 0 {
      var init := s[..|s| - 1];
      var p := s[|s| - 1];
      WithoutTwice(init, a, b);
      var tail := if p in a then [] else [p];
      WithoutConcat(Without(init, a), tail, b);
      assert Without(tail, b) == (if p in a + b then [] else [p]) by {
        if p !in a {
          assert tail[..0] == [];
        }
      }
    }
  }

  /** In a list without duplicates, an entry occurs neither before nor after its own place. */
  lemma DistinctSplit(front: seq<Plugin>, p: Plugin, back: seq<Plugin>)
    requires Distinct(front + [p] + back)
    ensures p !in front && p !in back
  {
    var s := front + [p] + back;
    assert s[|front|] == p;
    forall j | 0 <= j < |front|
      ensures front[j] != p
    {
      assert s[j] == front[j];
    }
    forall j | 0 <= j < |back|
      ensures back[j] != p
    {
      assert s[|front| + 1 + j] == back[j];
    }
  }

  /** Taking out the only occurrence of `p` leaves the entries around it. */
  lemma WithoutOnly(front: seq<Plugin>, p: Plugin, back: seq<Plugin>)
    requires p !in front && p !in back
    ensures Without(front + [p] + back, {p}) == front + back
  {
    var gone := {p};
    WithoutNothing(front, gone);
    WithoutNothing(back, gone);
    assert Without(front + [p], gone) == front by {
      assert (front + [p])[..|front|] == front;
    }
    WithoutConcat(front + [p], back, gone);
  }

  /** In a list without duplicates, removing the first occurrence removes every occurrence. */
  lemma RemoveFirstDistinct(s: seq<Plugin>, p: Plugin)
    requires Distinct(s)
    ensures RemoveFirst(s, p) == Without(s, {p})
  {
    var i := Find(s, p);
    if i == -1 {
      WithoutNothing(s, {p});
    } else {
      var front, back := s[..i], s[i + 1..];
      assert s == front + [p] + back;
      DistinctSplit(front, p, back);
      WithoutOnly(front, p, back);
    }
  }

  /** The registry after `unregister(removed)`: each plugin is spliced out at its `indexOf`, if found. */
  function Unregistered(plugins: seq<Plugin>, removed: seq<Plugin>): seq<Plugin>
  {
    if |removed| == 0 then plugins
    else RemoveFirst(Unregistered(plugins, removed[..|removed| - 1]), removed[|removed| - 1])
  }

  /**
   * Unregistering from a registry without duplicates removes exactly the given
   * plugins that are present, ignores the others, and keeps the order of the rest.
   */
  lemma {:induction false} UnregisteredIsWithout(plugins: seq<Plugin>, removed: seq<Plugin>)
    requires Distinct(plugins)
    ensures Unregistered(plugins, removed) == Without(plugins, set p | p in removed)
    ensures Distinct(Unregistered(plugins, removed))
  {
    if |removed| == 0 {
      WithoutNothing(plugins, {});
      assert (set p | p in removed) == {};
    } else {
      var init := removed[..|removed| - 1];
      var p := removed[|removed| - 1];
      UnregisteredIsWithout(plugins, init);
      var before := Without(plugins, set q | q in init);
      WithoutDistinct(plugins, set q | q in init);
      RemoveFirstDistinct(before, p);
      WithoutTwice(plugins, set q | q in init, {p});
      assert removed == init + [p];
      assert (set q | q in init) + {p} == set q | q in removed;
      WithoutDistinct(plugins, set q | q in removed);
    }
  }

  // ----- notify -----

  /**
   * The plugins `notify(extension)` calls, in order: those implementing the
   * extension, up to and including the first one that answers `false`.
   */
  function Notified(plugins: seq<Plugin>, extension: string): seq<Plugin>
  {
    if |plugins| == 0 then []
    else
      var p := plugins[0];
      (if Implements(p, extension) then [p] else [])
      + (if Vetoes(p, extension) then [] else Notified(plugins[1..], extension))
  }

  /** Notified of a suffix, unfolded once at its first plugin. */
  lemma NotifiedAt(plugins: seq<Plugin>, i: nat, extension: string)
    requires i < |plugins|
    ensures Notified(plugins[i..], extension) ==
      (if Implements(plugins[i], extension) then [plugins[i]] else [])
      + (if Vetoes(plugins[i], extension) then [] else Notified(plugins[i + 1..], extension))
  {
    assert plugins[i..][1..] == plugins[i + 1..];
  }

  /** The plugins implementing `extension`, in registration order. */
  function Implementing(plugins: seq<Plugin>, extension: string): seq<Plugin>
  {
    if |plugins| == 0 then []
    else (if Implements(plugins[0], extension) then [plugins[0]] else []) + Implementing(plugins[1..], extension)
  }

  lemma {:induction false} ImplementingMembers(plugins: seq<Plugin>, extension: string)
    ensures forall p :: p in Implementing(plugins, extension) <==> p in plugins && Implements(p, extension)
  {
    if |plugins| > 0 {
      ImplementingMembers(plugins[1..], extension);
      assert plugins == [plugins[0]] + plugins[1..];
    }
  }

  /** When no plugin answers `false`, every plugin implementing the extension is called, in order. */
  lemma {:induction false} NotifyWithoutVeto(plugins: seq<Plugin>, extension: string)
    requires forall i :: 0 <= i < |plugins| ==> !Vetoes(plugins[i], extension)
    ensures Notified(plugins, extension) == Implementing(plugins, extension)
  {
    if |plugins| > 0 {
      NotifyWithoutVeto(plugins[1..], extension);
    }
  }

  /**
   * When the plugin at `k` is the first to answer `false`, the implementing
   * plugins up to and including it are called, it is the last one called, and
   * none after it is.
   */
  lemma {:induction false} NotifyStopsAtVeto(plugins: seq<Plugin>, extension: string, k: nat)
    requires k < |plugins| && Vetoes(plugins[k], extension)
    requires forall i :: 0 <= i < k ==> !Vetoes(plugins[i], extension)
    ensures Notified(plugins, extension) == Implementing(plugins[..k + 1], extension)
    ensures var called := Notified(plugins, extension);
      |called| > 0 && called[|called| - 1] == plugins[k]
  {
    var p := plugins[0];
    var head := if Implements(p, extension) then [p] else [];
    var front := plugins[..k + 1];
    assert front[0] == p;
    assert Implementing(front, extension) == head + Implementing(front[1..], extension);
    if k == 0 {
      assert front[1..] == [];
      assert Notified(plugins, extension) == [p];
    } else {
      var rest := plugins[1..];
      forall i | 0 <= i < k - 1
        ensures !Vetoes(rest[i], extension)
      {
        assert rest[i] == plugins[i + 1];
      }
      NotifyStopsAtVeto(rest, extension, k - 1);
      assert !Vetoes(p, extension);
      assert Notified(plugins, extension) == head + Notified(rest, extension);
      assert front[1..] == rest[..k];
    }
  }

  /** The registry (`Chart.plugins`). */
  class PluginRegistry {
    var plugins: seq<Plugin>

    ghost predicate Valid()
      reads this
    {
      Distinct(plugins)
    }

    constructor()
      ensures plugins == [] && Valid()
    {
      plugins := [];
    }

    /**
     * `register(pluginsArr)`; a single plugin is passed as a one-element list,
     * as `[].concat` makes it. Only plugins not yet registered are appended.
     */
    method Register(added: seq<Plugin>)
      requires Valid()
      modifies this
      ensures Valid()
      ensures plugins == Registered(old(plugins), added)
      ensures |old(plugins)| <= |plugins| && plugins[..|old(plugins)|] == old(plugins)
      ensures forall p :: p in plugins <==> p in old(plugins) || p in added
    {
      var i := 0;
      while i < |added|
        invariant 0 <= i <= |added|
        invariant plugins == Registered(old(plugins), added[..i])
      {
        var p := added[i];
        assert added[..i + 1][..i] == added[..i];
        if Find(plugins, p) == -1 {
          plugins := plugins + [p];
        }
        i := i + 1;
      }
      assert added[..|added|] == added;
      RegisteredProperties(old(plugins), added);
    }

    /** `unregister(pluginsArr)`: each given plugin that is registered is spliced out. */
    method Unregister(removed: seq<Plugin>)
      requires Valid()
      modifies this
      ensures Valid()
      ensures plugins == Unregistered(old(plugins), removed)
      ensures plugins == Without(old(plugins), set p | p in removed)
      ensures forall p :: p in plugins <==> p in old(plugins) && p !in removed
    {
      var i := 0;
      while i < |removed|
        invariant 0 <= i <= |removed|
        invariant plugins == Unregistered(old(plugins), removed[..i])
      {
        var p := removed[i];
        assert removed[..i + 1][..i] == removed[..i];
        var idx := Find(plugins, p);
        if idx != -1 {
          plugins := plugins[..idx] + plugins[idx + 1..];
        }
        i := i + 1;
      }
      assert removed[..|removed|] == removed;
      UnregisteredIsWithout(old(plugins), removed);
      WithoutMembers(old(plugins), set p | p in removed);
    }

    /** `clear()`. */
    method Clear()
      modifies this
      ensures plugins == [] && Valid()
    {
      plugins := [];
    }

    /** `count()`: the length of the list, which in a valid registry is the number of distinct registered plugins. */
    function Count(): (n: nat)
      reads this
      ensures n == |plugins|
      ensures Valid() ==> n == |set p | p in plugins|
    {
      DistinctSizeWhenDistinct(plugins);
      |plugins|
    }

    /** `getAll()`: the registered plugins in registration order. */
    function GetAll(): (r: seq<Plugin>)
      reads this
      ensures Valid() ==> Distinct(r)
      ensures |r| == Count()
    {
      plugins
    }

    /**
     * `notify(extension)`: calls the hook of each plugin implementing it, in
     * order, and returns false as soon as one answers `false`, otherwise true.
     * `called` lists the plugins whose hook was called.
     */
    method Notify(extension: string) returns (r: bool, called: seq<Plugin>)
      ensures called == Notified(plugins, extension)
      ensures r <==> forall i :: 0 <= i < |plugins| ==> !Vetoes(plugins[i], extension)
      ensures r ==> called == Implementing(plugins, extension)
    {
      var pluginsArr := plugins;
      called := [];
      var i := 0;
      assert pluginsArr[0..] == pluginsArr;
      while i < |pluginsArr|
        invariant 0 <= i <= |pluginsArr|
        invariant forall j :: 0 <= j < i ==> !Vetoes(pluginsArr[j], extension)
        invariant called + Notified(pluginsArr[i..], extension) == Notified(pluginsArr, extension)
      {
        var plugin := pluginsArr[i];
        ghost var later := Notified(pluginsArr[i + 1..], extension);
        if extension in plugin.hooks {
          if StrictEquals(plugin.hooks[extension], Bool(false)) {
            assert Notified(pluginsArr[i..], extension) == [plugin] by {
              NotifiedAt(pluginsArr, i, extension);
            }
            assert Vetoes(pluginsArr[i], extension);
            return false, called + [plugin];
          }
          assert Notified(pluginsArr[i..], extension) == [plugin] + later by {
            NotifiedAt(pluginsArr, i, extension);
          }
          called := called + [plugin];
        } else {
          assert Notified(pluginsArr[i..], extension) == later by {
            NotifiedAt(pluginsArr, i, extension);
          }
        }
        i := i + 1;
      }
      assert called == Notified(pluginsArr, extension) by {
        assert pluginsArr[i..] == [];
      }
      NotifyWithoutVeto(pluginsArr, extension);
      return true, called;
    }
  }
}
