/**
 * External tool discovery: every attribute of every module in the tools
 * package is kept when it has both a `name` and a `description`.
 */
module ToolManager {
  import opened Outcomes

  /** A module attribute, seen only through the two attributes discovery probes. */
  datatype Obj = Obj(name: Option<string>, description: Option<string>)

  /** A module's attributes, in the order `dir()` lists them. */
  type Module = seq<Obj>

  /** `hasattr(obj, "name") and hasattr(obj, "description")`. */
  predicate IsTool(o: Obj) {
    o.name.Some? && o.description.Some?
  }

  /** The tool-shaped attributes of one module, in attribute order. */
  function Keep(attrs: Module): (r: seq<Obj>)
    ensures |r| <= |attrs|
    ensures forall k :: 0 <= k < |r| ==> IsTool(r[k])
  {
    if |attrs| == 0 then []
    else (if IsTool(attrs[0]) then [attrs[0]] else []) + Keep(attrs[1..])
  }

  /** `load_tools`: modules in enumeration order, each contributing its tool-shaped attributes. */
  function LoadTools(modules: seq<Module>): (r: seq<Obj>)
    ensures forall k :: 0 <= k < |r| ==> IsTool(r[k])
  {
    if |modules| == 0 then [] else Keep(modules[0]) + LoadTools(modules[1..])
  }

  /** All attributes of all modules, module by module. */
  function Flatten(modules: seq<Module>): seq<Obj>
  {
    if |modules| == 0 then [] else modules[0] + Flatten(modules[1..])
  }

  /** Discovery is the tool-shaped part of the flat attribute enumeration. */
  lemma {:induction false} LoadToolsIsKeepFlatten(modules: seq<Module>)
    ensures LoadTools(modules) == Keep(Flatten(modules))
  {
    if |modules| > 0 {
      LoadToolsIsKeepFlatten(modules[1..]);
      KeepAppend(modules[0], Flatten(modules[1..]));
    }
  }

  /** Keeping distributes over concatenation: order is preserved. */
  lemma {:induction false} KeepAppend(a: Module, b: Module)
    ensures Keep(a + b) == Keep(a) + Keep(b)
  {
    if |a| == 0 {
      assert a + b == b;
    } else {
      assert (a + b)[1..] == a[1..] + b;
      KeepAppend(a[1..], b);
    }
  }

  /** Discovery over more modules extends discovery over the first ones. */
  lemma {:induction false} LoadToolsAppend(a: seq<Module>, b: seq<Module>)
    ensures LoadTools(a + b) == LoadTools(a) + LoadTools(b)
  {
    if |a| == 0 {
      assert a + b == b;
    } else {
      assert (a + b)[1..] == a[1..] + b;
      LoadToolsAppend(a[1..], b);
    }
  }

  /**
   * No deduplication and nothing invented: a tool-shaped object occurs in the
   * result exactly as often as it occurs among the attributes; anything else never.
   */
  lemma {:induction false} KeepCounts(attrs: Module, o: Obj)
    ensures multiset(Keep(attrs))[o] == if IsTool(o) then multiset(attrs)[o] else 0
  {
    if |attrs| > 0 {
      KeepCounts(attrs[1..], o);
      assert attrs == [attrs[0]] + attrs[1..];
    }
  }

  /** The multiplicity statement of `KeepCounts`, for the whole discovery. */
  lemma LoadToolsCounts(modules: seq<Module>, o: Obj)
    ensures multiset(LoadTools(modules))[o] == if IsTool(o) then multiset(Flatten(modules))[o] else 0
  {
    LoadToolsIsKeepFlatten(modules);
    KeepCounts(Flatten(modules), o);
  }

  /** An object is discovered iff it is tool-shaped and is some attribute of some module. */
  lemma {:induction false} LoadToolsMembership(modules: seq<Module>, o: Obj)
    ensures o in LoadTools(modules) <==>
              IsTool(o) && exists i, j :: 0 <= i < |modules| && 0 <= j < |modules[i]| && modules[i][j] == o
  {
    if |modules| > 0 {
      LoadToolsMembership(modules[1..], o);
      KeepCounts(modules[0], o);
      assert o in Keep(modules[0]) <==> multiset(Keep(modules[0]))[o] > 0;
      assert o in modules[0] <==> multiset(modules[0])[o] > 0;
      if IsTool(o) && o in modules[0] {
        var j :| 0 <= j < |modules[0]| && modules[0][j] == o;
        assert modules[0][j] == o;
      }
      if exists i, j :: 1 <= i < |modules| && 0 <= j < |modules[i]| && modules[i][j] == o {
        var i, j :| 1 <= i < |modules| && 0 <= j < |modules[i]| && modules[i][j] == o;
        assert modules[1..][i - 1][j] == o;
      }
      if exists i, j :: 0 <= i < |modules[1..]| && 0 <= j < |modules[1..][i]| && modules[1..][i][j] == o {
        var i, j :| 0 <= i < |modules[1..]| && 0 <= j < |modules[1..][i]| && modules[1..][i][j] == o;
        assert modules[i + 1][j] == o;
      }
    }
  }

  /** The nested loops of `load_tools`: over modules, then over each module's attributes. */
  method Discover(modules: seq<Module>) returns (toolList: seq<Obj>)
    ensures toolList == LoadTools(modules)
    ensures forall k :: 0 <= k < |toolList| ==> IsTool(toolList[k])
  {
    toolList := [];
    var i := 0;
    while i < |modules|
      invariant 0 <= i <= |modules|
      invariant toolList == LoadTools(modules[..i])
    {
      var attrs := modules[i];
      var j := 0;
      ghost var before := toolList;
      while j < |attrs|
        invariant 0 <= j <= |attrs|
        invariant toolList == before + Keep(attrs[..j])
      {
        KeepAppend(attrs[..j], [attrs[j]]);
        assert attrs[..j + 1] == attrs[..j] + [attrs[j]];
        if IsTool(attrs[j]) {
          toolList := toolList + [attrs[j]];
        }
        j := j + 1;
      }
      assert attrs[..j] == attrs;
      LoadToolsAppend(modules[..i], [modules[i]]);
      assert modules[..i + 1] == modules[..i] + [modules[i]];
      assert LoadTools([modules[i]]) == Keep(modules[i]) by {
        assert [modules[i]][1..] == [];
      }
      i := i + 1;
    }
    assert modules[..i] == modules;
  }

  /** An empty package, or one whose modules have no attributes, yields no tools. */
  lemma NoModulesNoTools(modules: seq<Module>)
    requires forall i :: 0 <= i < |modules| ==> |modules[i]| == 0
    ensures LoadTools(modules) == []
  {
    if |modules| > 0 {
      NoModulesNoTools(modules[1..]);
    }
  }
}
