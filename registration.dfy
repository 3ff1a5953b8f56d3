/**
 * The six REGISTER_*SCRIPTFUNCTION* macros of lib/base/function.hpp. Each use
 * of one is a Directive; the routine it expands to builds one or two Function
 * records and stores them in the global script table.
 */
module ScriptRegistration {
  import opened Wrappers
  import opened ScriptFunction
  import opened ScriptGlobals

  /** The macros stringify C++ identifier tokens, which never contain the
      key separator `.` or the display-name separator `#`. */
  predicate IsToken(s: string)
  {
    '.' !in s && '#' !in s
  }

  /** Which naming scheme a macro uses: the plain one, `_NS` (alias
      `__name`) or `_NS_DEPRECATED` (alias under the bare `name`). */
  datatype Shape = Global | Namespaced(ns: string) | NamespacedDeprecated(ns: string)

  /** One use of a registration macro; `safe` selects the REGISTER_SAFE_ form. */
  datatype Directive = Directive(shape: Shape, name: string, callback: Callback, safe: bool)

  /** `ns` and `name` joined by the separator `sep`. */
  function Qualify(ns: string, sep: char, name: string): (r: string)
  {
    ns + [sep] + name
  }

  /** The position of the first `c` in `s`, or |s| if there is none. */
  function IndexOf(s: string, c: char): (i: nat)
    ensures i <= |s|
    ensures i < |s| ==> s[i] == c
    ensures forall j :: 0 <= j < i ==> s[j] != c
  {
    if s == [] || s[0] == c then 0 else 1 + IndexOf(s[1..], c)
  }

  /** Splits `s` at its first `sep` into namespace and name: the inverse of Qualify. */
  function Split(s: string, sep: char): (r: Option<(string, string)>)
    ensures r.Some? <==> sep in s
    ensures r.Some? ==> Qualify(r.value.0, sep, r.value.1) == s && sep !in r.value.0
  {
    var i := IndexOf(s, sep);
    if i == |s| then None
    else
      assert s == s[..i] + [sep] + s[i + 1..];
      Some((s[..i], s[i + 1..]))
  }

  lemma SplitQualify(ns: string, sep: char, name: string)
    requires sep !in ns
    ensures Split(Qualify(ns, sep, name), sep) == Some((ns, name))
  {
    var s := Qualify(ns, sep, name);
    var i := IndexOf(s, sep);
    assert s[|ns|] == sep;
    assert i == |ns|;
    assert s[..i] == ns && s[i + 1..] == name;
  }

  /** The registry key of the canonical record: `name`, or `ns.name`. */
  function CanonicalKey(d: Directive): (r: string)
  {
    match d.shape
    case Global => d.name
    case Namespaced(ns) => Qualify(ns, '.', d.name)
    case NamespacedDeprecated(ns) => Qualify(ns, '.', d.name)
  }

  /** The display name of the canonical record: `name`, or `ns#name`. */
  function CanonicalName(d: Directive): (r: string)
  {
    match d.shape
    case Global => d.name
    case Namespaced(ns) => Qualify(ns, '#', d.name)
    case NamespacedDeprecated(ns) => Qualify(ns, '#', d.name)
  }

  /** The registry key of the deprecated alias of a namespaced registration. */
  function AliasKey(d: Directive): (r: string)
    requires !d.shape.Global?
  {
    if d.shape.Namespaced? then "__" + d.name else d.name
  }

  /** The display name of the deprecated alias. */
  function AliasName(d: Directive): (r: string)
    requires !d.shape.Global?
  {
    AliasKey(d) + " (deprecated)"
  }

  /** The keys a registration writes. */
  function Keys(d: Directive): (r: set<string>)
  {
    if d.shape.Global? then {CanonicalKey(d)} else {CanonicalKey(d), AliasKey(d)}
  }

  /**
   * The ScriptGlobal::Set calls of one RegisterFunction routine, in order.
   * Every record carries the directive's callback and its `safe` flag as
   * `side_effect_free`; only the second record, the alias, is deprecated.
   */
  function Records(d: Directive): (ws: seq<Write>)
    ensures |ws| == if d.shape.Global? then 1 else 2
    ensures ws[0] == (CanonicalKey(d), Function(CanonicalName(d), d.callback, d.safe, false))
    ensures |ws| == 2 ==> ws[1] == (AliasKey(d), Function(AliasName(d), d.callback, d.safe, true))
    ensures forall i :: 0 <= i < |ws| ==>
              && ws[i].1.callback == d.callback
              && ws[i].1.IsSideEffectFree() == d.safe
              && (ws[i].1.IsDeprecated() <==> i == 1)
  {
    match d.shape
    case Global =>
      [(d.name, Function(d.name, d.callback, d.safe))]
    case Namespaced(ns) =>
      [(ns + "." + d.name, Function(ns + "#" + d.name, d.callback, d.safe)),
       ("__" + d.name, Function("__" + d.name + " (deprecated)", d.callback, d.safe, true))]
    case NamespacedDeprecated(ns) =>
      [(ns + "." + d.name, Function(ns + "#" + d.name, d.callback, d.safe)),
       (d.name, Function(d.name + " (deprecated)", d.callback, d.safe, true))]
  }

  /** The global table after the registration routine of `d` has run. */
  function Register(t: Table, d: Directive): (r: Table)
  {
    SetAll(t, Records(d))
  }

  /** Register as map updates: the canonical key, then the alias key. */
  lemma RegisterUpdates(t: Table, d: Directive)
    ensures d.shape.Global? ==>
              Register(t, d) == t[CanonicalKey(d) := Function(CanonicalName(d), d.callback, d.safe)]
    ensures !d.shape.Global? ==>
              Register(t, d) == t[CanonicalKey(d) := Function(CanonicalName(d), d.callback, d.safe)]
                                 [AliasKey(d) := Function(AliasName(d), d.callback, d.safe, true)]
  {
    var ws := Records(d);
    if |ws| == 1 {
      assert SetAll(t, ws) == SetAll(t, ws[..0])[ws[0].0 := ws[0].1];
    } else {
      assert SetAll(t, ws) == SetAll(t, ws[..1])[ws[1].0 := ws[1].1];
      assert SetAll(t, ws[..1]) == SetAll(t, ws[..1][..0])[ws[0].0 := ws[0].1];
    }
  }

  /** The canonical key and the alias key of one registration never coincide,
      so the alias write does not overwrite the canonical record. */
  lemma KeysDiffer(d: Directive)
    requires !d.shape.Global?
    ensures CanonicalKey(d) != AliasKey(d)
  {
    var ck, ak := CanonicalKey(d), AliasKey(d);
    if |ck| == |ak| {
      assert d.shape.Namespaced? && |d.shape.ns| == 1;
      assert ck[1] == '.' && ak[1] == '_';
    }
  }

  /** With token arguments, a canonical key contains `.` exactly when the
      registration is namespaced, an alias key never does, and a registry key
      never contains the `#` used by display names. */
  lemma KeyShapes(d: Directive)
    requires IsToken(d.name)
    requires !d.shape.Global? ==> IsToken(d.shape.ns)
    ensures '.' in CanonicalKey(d) <==> !d.shape.Global?
    ensures !d.shape.Global? ==> '.' !in AliasKey(d)
    ensures '#' !in CanonicalKey(d) && (!d.shape.Global? ==> '#' !in AliasKey(d))
    ensures '#' in CanonicalName(d) <==> !d.shape.Global?
  {
  }

  /** After a registration its canonical key holds the canonical record:
      display name `name` or `ns#name`, the directive's callback and safety
      flag, and not deprecated. */
  lemma RegisterBindsCanonical(t: Table, d: Directive)
    ensures Lookup(Register(t, d), CanonicalKey(d))
            == Some(Function(CanonicalName(d), d.callback, d.safe, false))
  {
    RegisterUpdates(t, d);
    if !d.shape.Global? {
      KeysDiffer(d);
    }
  }

  /** After a namespaced registration its alias key holds the alias record:
      display name with ` (deprecated)`, the same callback and safety flag,
      and deprecated. */
  lemma RegisterBindsAlias(t: Table, d: Directive)
    requires !d.shape.Global?
    ensures Lookup(Register(t, d), AliasKey(d))
            == Some(Function(AliasName(d), d.callback, d.safe, true))
  {
  }

  /** A registration changes no key other than the ones it writes. */
  lemma RegisterFrame(t: Table, d: Directive, key: string)
    requires key !in Keys(d)
    ensures Lookup(Register(t, d), key) == Lookup(t, key)
  {
    RegisterUpdates(t, d);
  }

  /** The keys present after a registration are the old ones plus its own. */
  lemma RegisterDomain(t: Table, d: Directive)
    ensures Register(t, d).Keys == t.Keys + Keys(d)
  {
  }

  /** The canonical and alias entries of one registration wrap the same
      callback: invoking either, bound or not, gives the same result or the
      same error. They share the side-effect-free flag; only the alias is
      deprecated. */
  lemma AliasBehavesLikeCanonical(t: Table, d: Directive, behaviour: Behaviour,
                                  otherThis: Value, arguments: seq<Value>)
    requires !d.shape.Global?
    ensures CanonicalKey(d) in Register(t, d) && AliasKey(d) in Register(t, d)
    ensures var c, a := Register(t, d)[CanonicalKey(d)], Register(t, d)[AliasKey(d)];
            && a.Invoke(behaviour, arguments) == c.Invoke(behaviour, arguments)
            && a.InvokeBound(behaviour, otherThis, arguments) == c.InvokeBound(behaviour, otherThis, arguments)
            && a.IsSideEffectFree() == c.IsSideEffectFree() == d.safe
            && a.IsDeprecated() && !c.IsDeprecated()
  {
    RegisterBindsCanonical(t, d);
    RegisterBindsAlias(t, d);
  }

  /** The registry key and the display name of a namespaced record name the
      same (namespace, name) pair, one with `.` and one with `#`, and are
      therefore never equal. */
  lemma CanonicalNameMatchesKey(d: Directive)
    requires !d.shape.Global? && IsToken(d.shape.ns)
    ensures Split(CanonicalKey(d), '.') == Split(CanonicalName(d), '#') == Some((d.shape.ns, d.name))
    ensures CanonicalKey(d) != CanonicalName(d)
  {
    var ns := d.shape.ns;
    SplitQualify(ns, '.', d.name);
    SplitQualify(ns, '#', d.name);
    assert CanonicalKey(d)[|ns|] != CanonicalName(d)[|ns|];
  }

  /** Different (namespace, name) pairs get different canonical keys. */
  lemma CanonicalKeyInjective(d1: Directive, d2: Directive)
    requires !d1.shape.Global? && IsToken(d1.shape.ns)
    requires !d2.shape.Global? && IsToken(d2.shape.ns)
    ensures CanonicalKey(d1) == CanonicalKey(d2) <==> d1.shape.ns == d2.shape.ns && d1.name == d2.name
  {
    CanonicalNameMatchesKey(d1);
    CanonicalNameMatchesKey(d2);
  }

  /** A plain registration never overwrites the canonical entry of a
      namespaced one, since its key has no `.`. */
  lemma GlobalNeverHitsNamespaced(d1: Directive, d2: Directive)
    requires d1.shape.Global? && '.' !in d1.name
    requires !d2.shape.Global?
    ensures CanonicalKey(d1) != CanonicalKey(d2)
  {
  }

  /**
   * The `_NS` alias ignores the namespace: two namespaced registrations of
   * one name in different namespaces keep both canonical entries, but the
   * shared alias `__name` holds the record of the later one.
   */
  lemma AliasOfLaterNamespaceWins(t: Table, d1: Directive, d2: Directive)
    requires d1.shape.Namespaced? && d2.shape.Namespaced?
    requires d1.name == d2.name && d1.shape.ns != d2.shape.ns
    ensures AliasKey(d1) == AliasKey(d2)
    ensures var t' := Register(Register(t, d1), d2);
            && Lookup(t', CanonicalKey(d1)) == Some(Function(CanonicalName(d1), d1.callback, d1.safe))
            && Lookup(t', CanonicalKey(d2)) == Some(Function(CanonicalName(d2), d2.callback, d2.safe))
            && Lookup(t', AliasKey(d1)) == Some(Function(AliasName(d2), d2.callback, d2.safe, true))
  {
    var t1 := Register(t, d1);
    RegisterBindsCanonical(t, d1);
    SameNameKeysDiffer(d1, d2);
    KeysDiffer(d2);
    RegisterFrame(t1, d2, CanonicalKey(d1));
    RegisterBindsCanonical(t1, d2);
    RegisterBindsAlias(t1, d2);
  }

  /** One name in two namespaces gives two canonical keys, whatever the
      namespaces contain. */
  lemma SameNameKeysDiffer(d1: Directive, d2: Directive)
    requires !d1.shape.Global? && !d2.shape.Global?
    requires d1.name == d2.name && d1.shape.ns != d2.shape.ns
    ensures CanonicalKey(d1) != CanonicalKey(d2)
  {
    var ns1, ns2 := d1.shape.ns, d2.shape.ns;
    if |ns1| == |ns2| {
      assert CanonicalKey(d1)[..|ns1|] == ns1 && CanonicalKey(d2)[..|ns1|] == ns2;
    }
  }

  /** Two `_NS_DEPRECATED` registrations of one name in different namespaces
      share the bare alias `name`, which holds the record of the later one. */
  lemma DeprecatedAliasesCollide(t: Table, d1: Directive, d2: Directive)
    requires d1.shape.NamespacedDeprecated? && d2.shape.NamespacedDeprecated?
    requires d1.name == d2.name
    ensures AliasKey(d1) == AliasKey(d2)
    ensures Lookup(Register(Register(t, d1), d2), AliasKey(d1))
            == Some(Function(AliasName(d2), d2.callback, d2.safe, true))
  {
    RegisterBindsAlias(Register(t, d1), d2);
  }

  /** The `_NS_DEPRECATED` alias lives in the plain namespace: registering
      `ns.name` with that macro after a plain registration of `name`
      replaces the plain record with the deprecated alias. */
  lemma DeprecatedAliasReplacesGlobal(t: Table, d1: Directive, d2: Directive)
    requires d1.shape.Global? && d2.shape.NamespacedDeprecated?
    requires d1.name == d2.name
    ensures AliasKey(d2) == CanonicalKey(d1)
    ensures Lookup(Register(Register(t, d1), d2), CanonicalKey(d1))
            == Some(Function(AliasName(d2), d2.callback, d2.safe, true))
  {
  }

  /** A plain registration of `__name` after a `_NS` registration of `name`
      replaces that registration's alias and keeps its canonical entry. */
  lemma GlobalReplacesNamespacedAlias(t: Table, d1: Directive, d2: Directive)
    requires d1.shape.Namespaced? && d2.shape.Global?
    requires d2.name == "__" + d1.name
    ensures CanonicalKey(d2) == AliasKey(d1)
    ensures var t' := Register(Register(t, d1), d2);
            && Lookup(t', AliasKey(d1)) == Some(Function(d2.name, d2.callback, d2.safe))
            && Lookup(t', CanonicalKey(d1)) == Some(Function(CanonicalName(d1), d1.callback, d1.safe))
  {
    var t1 := Register(t, d1);
    RegisterBindsCanonical(t, d1);
    KeysDiffer(d1);
    RegisterFrame(t1, d2, CanonicalKey(d1));
    RegisterBindsCanonical(t1, d2);
  }

  /** What a registration writes does not depend on the table it writes into. */
  lemma WrittenValueIgnoresTable(t: Table, u: Table, d: Directive, key: string)
    requires key in Keys(d)
    ensures Lookup(Register(t, d), key) == Lookup(Register(u, d), key)
  {
    RegisterUpdates(t, d);
    RegisterUpdates(u, d);
  }

  /** Registrations writing disjoint keys can run in either order with the
      same resulting table. */
  lemma DisjointRegistrationsCommute(t: Table, d1: Directive, d2: Directive)
    requires Keys(d1) !! Keys(d2)
    ensures Register(Register(t, d1), d2) == Register(Register(t, d2), d1)
  {
    var t1, t2 := Register(t, d1), Register(t, d2);
    var a, b := Register(t1, d2), Register(t2, d1);
    forall key
      ensures Lookup(a, key) == Lookup(b, key)
    {
      if key in Keys(d2) {
        WrittenValueIgnoresTable(t1, t, d2, key);
        RegisterFrame(t2, d1, key);
      } else if key in Keys(d1) {
        RegisterFrame(t1, d2, key);
        WrittenValueIgnoresTable(t, t2, d1, key);
      } else {
        RegisterFrame(t1, d2, key);
        RegisterFrame(t, d1, key);
        RegisterFrame(t2, d1, key);
        RegisterFrame(t, d2, key);
      }
    }
    assert a.Keys == b.Keys;
    assert forall key :: key in a ==> a[key] == b[key] by {
      forall key | key in a
        ensures a[key] == b[key]
      {
        assert Lookup(a, key) == Lookup(b, key);
      }
    }
  }

  /** REGISTER_SCRIPTFUNCTION(name, callback) */
  method RegisterScriptFunction(g: ScriptGlobal, name: string, callback: Callback)
    modifies g
    ensures g.globals == old(g.globals)[name := Function(name, callback)]
    ensures g.globals == Register(old(g.globals), Directive(Global, name, callback, false))
  {
    RegisterUpdates(g.globals, Directive(Global, name, callback, false));
    var sf := Function(name, callback);
    g.Set(name, sf);
  }

  /** REGISTER_SCRIPTFUNCTION_NS(ns, name, callback) */
  method RegisterScriptFunctionNs(g: ScriptGlobal, ns: string, name: string, callback: Callback)
    modifies g
    ensures g.globals == old(g.globals)[ns + "." + name := Function(ns + "#" + name, callback, false)]
                                       ["__" + name := Function("__" + name + " (deprecated)", callback, false, true)]
    ensures g.globals == Register(old(g.globals), Directive(Namespaced(ns), name, callback, false))
  {
    RegisterUpdates(g.globals, Directive(Namespaced(ns), name, callback, false));
    var sf := Function(ns + "#" + name, callback, false);
    g.Set(ns + "." + name, sf);
    var dsf := Function("__" + name + " (deprecated)", callback, false, true);
    g.Set("__" + name, dsf);
  }

  /** REGISTER_SCRIPTFUNCTION_NS_DEPRECATED(ns, name, callback) */
  method RegisterScriptFunctionNsDeprecated(g: ScriptGlobal, ns: string, name: string, callback: Callback)
    modifies g
    ensures g.globals == old(g.globals)[ns + "." + name := Function(ns + "#" + name, callback, false)]
                                       [name := Function(name + " (deprecated)", callback, false, true)]
    ensures g.globals == Register(old(g.globals), Directive(NamespacedDeprecated(ns), name, callback, false))
  {
    RegisterUpdates(g.globals, Directive(NamespacedDeprecated(ns), name, callback, false));
    var sf := Function(ns + "#" + name, callback, false);
    g.Set(ns + "." + name, sf);
    var dsf := Function(name + " (deprecated)", callback, false, true);
    g.Set(name, dsf);
  }

  /** REGISTER_SAFE_SCRIPTFUNCTION(name, callback) */
  method RegisterSafeScriptFunction(g: ScriptGlobal, name: string, callback: Callback)
    modifies g
    ensures g.globals == old(g.globals)[name := Function(name, callback, true)]
    ensures g.globals == Register(old(g.globals), Directive(Global, name, callback, true))
  {
    RegisterUpdates(g.globals, Directive(Global, name, callback, true));
    var sf := Function(name, callback, true);
    g.Set(name, sf);
  }

  /** REGISTER_SAFE_SCRIPTFUNCTION_NS(ns, name, callback) */
  method RegisterSafeScriptFunctionNs(g: ScriptGlobal, ns: string, name: string, callback: Callback)
    modifies g
    ensures g.globals == old(g.globals)[ns + "." + name := Function(ns + "#" + name, callback, true)]
                                       ["__" + name := Function("__" + name + " (deprecated)", callback, true, true)]
    ensures g.globals == Register(old(g.globals), Directive(Namespaced(ns), name, callback, true))
  {
    RegisterUpdates(g.globals, Directive(Namespaced(ns), name, callback, true));
    var sf := Function(ns + "#" + name, callback, true);
    g.Set(ns + "." + name, sf);
    var dsf := Function("__" + name + " (deprecated)", callback, true, true);
    g.Set("__" + name, dsf);
  }

  /** REGISTER_SAFE_SCRIPTFUNCTION_NS_DEPRECATED(ns, name, callback) */
  method RegisterSafeScriptFunctionNsDeprecated(g: ScriptGlobal, ns: string, name: string, callback: Callback)
    modifies g
    ensures g.globals == old(g.globals)[ns + "." + name := Function(ns + "#" + name, callback, true)]
                                       [name := Function(name + " (deprecated)", callback, true, true)]
    ensures g.globals == Register(old(g.globals), Directive(NamespacedDeprecated(ns), name, callback, true))
  {
    RegisterUpdates(g.globals, Directive(NamespacedDeprecated(ns), name, callback, true));
    var sf := Function(ns + "#" + name, callback, true);
    g.Set(ns + "." + name, sf);
    var dsf := Function(name + " (deprecated)", callback, true, true);
    g.Set(name, dsf);
  }

  /** A client: `math.square` registered with the `_NS` macro, looked up under
      both keys and invoked, using only the contracts above. */
  method SquareClient()
  {
    var square := Callback(0);
    var behaviour: Behaviour := (cb: Callback, self: Option<Value>, args: seq<Value>) =>
      if cb == square && |args| == 1 && args[0].Number?
      then Ok(Number(args[0].n * args[0].n))
      else Err(ArityOrType("square expects one number"));
    var g := new ScriptGlobal();
    RegisterScriptFunctionNs(g, "math", "square", square);
    assert "math" + "." + "square" == "math.square" && "__" + "square" == "__square";
    var canonical, alias := g.Get("math.square"), g.Get("__square");
    assert canonical.Some? && alias.Some?;
    assert canonical.value.Invoke(behaviour, [Number(3)]) == Ok(Number(9));
    assert alias.value.Invoke(behaviour, [Number(3)]) == Ok(Number(9));
    assert alias.value.IsDeprecated() && !canonical.value.IsDeprecated();
    assert canonical.value.Invoke(behaviour).Err?;
  }
}
