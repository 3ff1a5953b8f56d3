/**
 * The global script table that registrations write into. Only its Set
 * operation is used by function.hpp; it is modelled as a plain map update
 * where the last write to a key wins (no collision check).
 */
module ScriptGlobals {
  import opened Wrappers
  import opened ScriptFunction

  type Table = map<string, Function>

  /** One ScriptGlobal::Set call: a key and the record stored under it. */
  type Write = (string, Function)

  function Lookup(t: Table, key: string): (r: Option<Function>)
  {
    if key in t then Some(t[key]) else None
  }

  /** The keys written by `ws`. */
  function WrittenKeys(ws: seq<Write>): (r: set<string>)
  {
    set i | 0 <= i < |ws| :: ws[i].0
  }

  /** The table after performing the writes `ws` in order: its keys are the
      old keys plus every written key. */
  function SetAll(t: Table, ws: seq<Write>): (r: Table)
    ensures r.Keys == t.Keys + WrittenKeys(ws)
  {
    if ws == [] then t
    else
      var last := ws[|ws| - 1];
      assert WrittenKeys(ws) == WrittenKeys(ws[..|ws| - 1]) + {last.0} by {
        assert forall i :: 0 <= i < |ws| - 1 ==> ws[..|ws| - 1][i] == ws[i];
      }
      SetAll(t, ws[..|ws| - 1])[last.0 := last.1]
  }

  /** The record of the last write to `key` in `ws`, if any. */
  function LastWrite(ws: seq<Write>, key: string): (r: Option<Function>)
    ensures r.Some? <==> exists i :: 0 <= i < |ws| && ws[i].0 == key
    ensures r.Some? ==> exists i :: 0 <= i < |ws| && ws[i] == (key, r.value)
                                    && forall j :: i < j < |ws| ==> ws[j].0 != key
  {
    if ws == [] then None
    else if ws[|ws| - 1].0 == key then Some(ws[|ws| - 1].1)
    else
      var r := LastWrite(ws[..|ws| - 1], key);
      assert forall i :: 0 <= i < |ws| - 1 ==> ws[..|ws| - 1][i] == ws[i];
      r
  }

  /** Last write wins: after a series of writes a key holds the record of the
      last write to it, and a key never written keeps its old binding. */
  lemma {:induction false} SetAllLookup(t: Table, ws: seq<Write>, key: string)
    ensures Lookup(SetAll(t, ws), key) == if LastWrite(ws, key).Some? then LastWrite(ws, key) else Lookup(t, key)
  {
    if ws != [] {
      SetAllLookup(t, ws[..|ws| - 1], key);
    }
  }

  /** The process-wide table of script globals. */
  class ScriptGlobal {
    var globals: Table

    constructor ()
      ensures globals == map[]
    {
      globals := map[];
    }

    /** Binds `name` to `value`, overwriting any earlier binding. */
    method Set(name: string, value: Function)
      modifies this
      ensures globals == old(globals)[name := value]
    {
      globals := globals[name := value];
    }

    function Get(name: string): (r: Option<Function>)
      reads this
    {
      Lookup(globals, name)
    }
  }
}
