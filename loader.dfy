/**
 * The tool-registration scan of main.py (`recursive_import_tools`): every unit found under the
 * tools directory is imported unless its file name starts with `_`, and every exported callable
 * marked as a tool has its `__name__` added to `registered_tool_names`, or a duplicate is reported.
 * The set only detects duplicates: the registration itself happens in the library decorator
 * when a unit is imported, and that is not part of this model.
 */
module ToolLoader {

  /** One name listed by `dir(mod)`, with what `getattr` finds under it. */
  datatype Attr = Attr(attrName: string, isCallable: bool, marked: bool, funcName: string)

  /** The outcome of `importlib.import_module`: the exception's text, or the unit's names in `dir` order. */
  datatype Load = LoadFail(error: string) | Loaded(attrs: seq<Attr>)

  /** A `.py` file found by `rglob`: its path components and what importing it gives. */
  datatype Unit = Unit(parts: seq<string>, load: Load)

  /** A line the scan prints. */
  datatype Diagnostic =
    | Duplicate(toolName: string, modulePath: string)
    | ImportFailed(modulePath: string, error: string)
  {
    /** The printed text. */
    function Text(): (r: string)
      ensures |r| > 0 && (r[0] == '\U{26A0}' <==> Duplicate?) && (r[0] == '\U{274C}' <==> ImportFailed?)
      ensures Duplicate? ==> |modulePath| <= |r| && r[|r| - |modulePath|..] == modulePath
      ensures ImportFailed? ==> |error| <= |r| && r[|r| - |error|..] == error
    {
      match this
      case Duplicate(n, m) => "⚠️ MCP工具函数重复注册: `" + n + "` 来源模块: " + m
      case ImportFailed(m, e) => "❌ 模块导入失败: " + m + "，错误：" + e
    }
  }

  // ---------------------------------------------------------------- module paths

  /** `name.rfind('.')`. */
  function LastDot(name: string): (i: int)
    ensures -1 <= i < |name|
    ensures i >= 0 ==> name[i] == '.'
    ensures forall k :: i < k < |name| ==> name[k] != '.'
  {
    if name == [] then -1
    else if name[|name| - 1] == '.' then |name| - 1
    else LastDot(name[..|name| - 1])
  }

  /** `name.find('.')`. */
  function FirstDot(s: string): (i: int)
    ensures -1 <= i < |s|
    ensures i >= 0 ==> s[i] == '.'
    ensures forall k :: 0 <= k < (if i < 0 then |s| else i) ==> s[k] != '.'
  {
    if s == [] then -1
    else if s[0] == '.' then 0
    else var j := FirstDot(s[1..]); if j < 0 then -1 else j + 1
  }

  /**
   * The last path component with `with_suffix("")` applied: pathlib's suffix starts at the last
   * dot, unless that dot is the first or the last character of the name.
   */
  function WithoutSuffix(name: string): (r: string)
    ensures r <= name
  {
    var i := LastDot(name);
    if 0 < i < |name| - 1 then name[..i] else name
  }

  lemma WithoutSuffixPy(stem: string)
    requires stem != ""
    ensures WithoutSuffix(stem + ".py") == stem
  {
    var name := stem + ".py";
    assert name[|stem|] == '.' && name[|stem| + 1] == 'p' && name[|stem| + 2] == 'y';
    assert LastDot(name) == |stem|;
    assert name[..|stem|] == stem;
  }

  /** `".".join(parts)`. */
  function Join(parts: seq<string>): string
  {
    if |parts| == 0 then ""
    else if |parts| == 1 then parts[0]
    else parts[0] + "." + Join(parts[1..])
  }

  /** `s.split(".")`: the inverse of `Join` on dot-free components. */
  function Split(s: string): (parts: seq<string>)
    ensures |parts| >= 1
    decreases |s|
  {
    var i := FirstDot(s);
    if i < 0 then [s] else [s[..i]] + Split(s[i + 1..])
  }

  predicate DotFree(s: string)
  {
    forall k :: 0 <= k < |s| ==> s[k] != '.'
  }

  lemma {:induction false} SplitJoin(parts: seq<string>)
    requires |parts| >= 1
    requires forall j :: 0 <= j < |parts| ==> DotFree(parts[j])
    ensures Split(Join(parts)) == parts
  {
    if |parts| == 1 {
      assert FirstDot(parts[0]) == -1;
    } else {
      var s := Join(parts);
      var rest := Join(parts[1..]);
      assert s == parts[0] + "." + rest;
      assert s[|parts[0]|] == '.';
      assert forall k :: 0 <= k < |parts[0]| ==> s[k] == parts[0][k];
      assert FirstDot(s) == |parts[0]|;
      assert s[..|parts[0]|] == parts[0];
      assert s[|parts[0]| + 1..] == rest;
      SplitJoin(parts[1..]);
      assert parts == [parts[0]] + parts[1..];
    }
  }

  /** `".".join(path.with_suffix("").parts)`. */
  function ModulePath(parts: seq<string>): string
  {
    if parts == [] then ""
    else Join(parts[..|parts| - 1] + [WithoutSuffix(parts[|parts| - 1])])
  }

  /**
   * The module path of `d1/d2/.../stem.py` has the components `d1, d2, ..., stem`: the
   * directories joined by dots, followed by the file name without `.py`.
   */
  lemma ModulePathComponents(dirs: seq<string>, stem: string)
    requires stem != "" && DotFree(stem)
    requires forall j :: 0 <= j < |dirs| ==> DotFree(dirs[j])
    ensures Split(ModulePath(dirs + [stem + ".py"])) == dirs + [stem]
  {
    var parts := dirs + [stem + ".py"];
    WithoutSuffixPy(stem);
    assert parts[..|parts| - 1] == dirs;
    SplitJoin(dirs + [stem]);
  }

  /** `path.name.startswith("_")`: `__init__.py` and private helpers. */
  predicate IsPrivate(parts: seq<string>)
  {
    parts != [] && parts[|parts| - 1] != "" && parts[|parts| - 1][0] == '_'
  }

  // ---------------------------------------------------------------- the scan, as a function

  /** The scan's mutable state: `registered_tool_names` and the printed lines so far. */
  datatype State = State(names: set<string>, log: seq<Diagnostic>)

  /** `callable(attr) and getattr(attr, "_is_mcp_tool", False)`. */
  predicate IsToolCandidate(a: Attr)
  {
    a.isCallable && a.marked
  }

  /** One attribute of a loaded unit: a duplicate is reported and the set left alone, a new name added. */
  function Offer(st: State, modulePath: string, a: Attr): (r: State)
    ensures st.names <= r.names && st.log <= r.log
    ensures r.names == if IsToolCandidate(a) then st.names + {a.funcName} else st.names
    ensures r.log == st.log + if IsToolCandidate(a) && a.funcName in st.names then [Duplicate(a.funcName, modulePath)] else []
  {
    if !IsToolCandidate(a) then st
    else if a.funcName in st.names then State(st.names, st.log + [Duplicate(a.funcName, modulePath)])
    else State(st.names + {a.funcName}, st.log)
  }

  /** The inner loop over `dir(mod)`. */
  function OfferAll(st: State, modulePath: string, attrs: seq<Attr>): State
  {
    if attrs == [] then st
    else Offer(OfferAll(st, modulePath, attrs[..|attrs| - 1]), modulePath, attrs[|attrs| - 1])
  }

  /** One iteration of the outer loop. */
  function ScanUnit(st: State, u: Unit): State
  {
    if IsPrivate(u.parts) then st
    else match u.load
      case LoadFail(e) => State(st.names, st.log + [ImportFailed(ModulePath(u.parts), e)])
      case Loaded(attrs) => OfferAll(st, ModulePath(u.parts), attrs)
  }

  /** The whole loop over the units, in the order `rglob` yields them. */
  function Scan(st: State, units: seq<Unit>): State
  {
    if units == [] then st
    else ScanUnit(Scan(st, units[..|units| - 1]), units[|units| - 1])
  }

  // ---------------------------------------------------------------- the scan, as the source runs it

  class ToolRegistry {
    /** `registered_tool_names`. */
    var names: set<string>
    /** What the scan has printed. */
    var log: seq<Diagnostic>

    constructor ()
      ensures names == {} && log == []
    {
      names := {};
      log := [];
    }

    /** `recursive_import_tools`, over the units `rglob` finds. */
    method RecursiveImportTools(units: seq<Unit>)
      modifies this
      ensures State(names, log) == Scan(State(old(names), old(log)), units)
    {
      ghost var st0 := State(names, log);
      for i := 0 to |units|
        invariant State(names, log) == Scan(st0, units[..i])
      {
        assert units[..i + 1][..i] == units[..i];
        var u := units[i];
        if IsPrivate(u.parts) {
          continue;
        }
        var modulePath := ModulePath(u.parts);
        match u.load {
          case LoadFail(e) =>
            log := log + [ImportFailed(modulePath, e)];
          case Loaded(attrs) =>
            ghost var before := State(names, log);
            for j := 0 to |attrs|
              invariant State(names, log) == OfferAll(before, modulePath, attrs[..j])
            {
              assert attrs[..j + 1][..j] == attrs[..j];
              var a := attrs[j];
              if a.isCallable && a.marked {
                if a.funcName in names {
                  log := log + [Duplicate(a.funcName, modulePath)];
                } else {
                  names := names + {a.funcName};
                }
              }
            }
            assert attrs[..|attrs|] == attrs;
        }
      }
      assert units[..|units|] == units;
    }
  }

  // ---------------------------------------------------------------- properties of the scan

  /** The funcNames of the tool candidates among `attrs`, in order. */
  function AttrCandidates(attrs: seq<Attr>): seq<string>
  {
    if attrs == [] then []
    else AttrCandidates(attrs[..|attrs| - 1]) + if IsToolCandidate(attrs[|attrs| - 1]) then [attrs[|attrs| - 1].funcName] else []
  }

  /** The names a unit offers: none when it is private or fails to load. */
  function UnitCandidates(u: Unit): seq<string>
  {
    if IsPrivate(u.parts) || u.load.LoadFail? then [] else AttrCandidates(u.load.attrs)
  }

  /** Every name offered by the units, duplicates included, in scan order. */
  function Candidates(units: seq<Unit>): seq<string>
  {
    if units == [] then [] else Candidates(units[..|units| - 1]) + UnitCandidates(units[|units| - 1])
  }

  /** The number of duplicate reports in a log. */
  function DuplicateCount(log: seq<Diagnostic>): nat
  {
    if log == [] then 0 else DuplicateCount(log[..|log| - 1]) + if log[|log| - 1].Duplicate? then 1 else 0
  }

  function Elems(s: seq<string>): set<string>
  {
    set x | x in s
  }

  lemma {:induction false} OfferAllNames(st: State, mp: string, attrs: seq<Attr>)
    ensures OfferAll(st, mp, attrs).names == st.names + Elems(AttrCandidates(attrs))
  {
    if attrs != [] {
      var init := attrs[..|attrs| - 1];
      var a := attrs[|attrs| - 1];
      OfferAllNames(st, mp, init);
      var c := if IsToolCandidate(a) then [a.funcName] else [];
      assert AttrCandidates(attrs) == AttrCandidates(init) + c;
      assert Elems(AttrCandidates(attrs)) == Elems(AttrCandidates(init)) + Elems(c);
    }
  }

  lemma {:induction false} OfferAllLog(st: State, mp: string, attrs: seq<Attr>)
    ensures st.log <= OfferAll(st, mp, attrs).log
  {
    if attrs != [] {
      OfferAllLog(st, mp, attrs[..|attrs| - 1]);
    }
  }

  lemma {:induction false} OfferAllCount(st: State, mp: string, attrs: seq<Attr>)
    ensures DuplicateCount(OfferAll(st, mp, attrs).log) + |OfferAll(st, mp, attrs).names|
         == DuplicateCount(st.log) + |st.names| + |AttrCandidates(attrs)|
  {
    if attrs != [] {
      var init := attrs[..|attrs| - 1];
      var a := attrs[|attrs| - 1];
      OfferAllCount(st, mp, init);
      var mid := OfferAll(st, mp, init);
      var r := Offer(mid, mp, a);
      assert r == OfferAll(st, mp, attrs);
      assert |AttrCandidates(attrs)| == |AttrCandidates(init)| + if IsToolCandidate(a) then 1 else 0;
      if IsToolCandidate(a) && a.funcName in mid.names {
        assert r.log[..|r.log| - 1] == mid.log;
        assert r.names == mid.names;
      } else if IsToolCandidate(a) {
        assert r.log == mid.log;
        assert |mid.names + {a.funcName}| == |mid.names| + 1;
      } else {
        assert r == mid;
      }
    }
  }

  /** A loaded unit none of whose attributes is a marked callable changes nothing. */
  lemma {:induction false} UnmarkedUnitIgnored(st: State, mp: string, attrs: seq<Attr>)
    requires forall j :: 0 <= j < |attrs| ==> !IsToolCandidate(attrs[j])
    ensures OfferAll(st, mp, attrs) == st
  {
    if attrs != [] {
      UnmarkedUnitIgnored(st, mp, attrs[..|attrs| - 1]);
    }
  }

  lemma {:induction false} ScanUnitEffect(st: State, u: Unit)
    ensures ScanUnit(st, u).names == st.names + Elems(UnitCandidates(u))
    ensures DuplicateCount(ScanUnit(st, u).log) + |ScanUnit(st, u).names|
         == DuplicateCount(st.log) + |st.names| + |UnitCandidates(u)|
  {
    if IsPrivate(u.parts) {
      assert Elems([]) == {};
    } else if u.load.LoadFail? {
      assert Elems([]) == {};
      var log := ScanUnit(st, u).log;
      assert log[..|log| - 1] == st.log;
    } else {
      OfferAllNames(st, ModulePath(u.parts), u.load.attrs);
      OfferAllCount(st, ModulePath(u.parts), u.load.attrs);
    }
  }

  /**
   * After the scan the set holds the names it started with plus every name any unit offered,
   * and the duplicates reported are exactly the offers that found their name taken:
   * reports + registered == already registered + offers.
   */
  lemma {:induction false} ScanEffect(st: State, units: seq<Unit>)
    ensures Scan(st, units).names == st.names + Elems(Candidates(units))
    ensures DuplicateCount(Scan(st, units).log) + |Scan(st, units).names|
         == DuplicateCount(st.log) + |st.names| + |Candidates(units)|
  {
    if units == [] {
      assert Elems([]) == {};
    } else {
      var init := units[..|units| - 1];
      var u := units[|units| - 1];
      ScanEffect(st, init);
      ScanUnitEffect(Scan(st, init), u);
      assert Elems(Candidates(units)) == Elems(Candidates(init)) + Elems(UnitCandidates(u));
    }
  }

  /** From a fresh start, the set is the distinct offered names and the reports are the surplus offers. */
  lemma CountsFromEmpty(units: seq<Unit>)
    ensures Scan(State({}, []), units).names == Elems(Candidates(units))
    ensures DuplicateCount(Scan(State({}, []), units).log) == |Candidates(units)| - |Elems(Candidates(units))|
  {
    ScanEffect(State({}, []), units);
  }

  /** The set only grows and the log is only appended to. */
  lemma {:induction false} ScanGrows(st: State, units: seq<Unit>)
    ensures st.names <= Scan(st, units).names
    ensures st.log <= Scan(st, units).log
  {
    if units != [] {
      var init := units[..|units| - 1];
      var u := units[|units| - 1];
      ScanGrows(st, init);
      var mid := Scan(st, init);
      if !IsPrivate(u.parts) && u.load.Loaded? {
        OfferAllNames(mid, ModulePath(u.parts), u.load.attrs);
        OfferAllLog(mid, ModulePath(u.parts), u.load.attrs);
      }
    }
  }

  /** Scanning two runs of units one after the other is scanning their concatenation. */
  lemma {:induction false} ScanAppend(st: State, a: seq<Unit>, b: seq<Unit>)
    ensures Scan(st, a + b) == Scan(Scan(st, a), b)
  {
    if b == [] {
      assert a + b == a;
    } else {
      var b' := b[..|b| - 1];
      assert (a + b)[..|a + b| - 1] == a + b';
      ScanAppend(st, a, b');
    }
  }

  /** A unit whose file name starts with `_` is never imported and contributes nothing. */
  lemma PrivateUnitIgnored(st: State, a: seq<Unit>, u: Unit, b: seq<Unit>)
    requires IsPrivate(u.parts)
    ensures Scan(st, a + [u] + b) == Scan(st, a + b)
  {
    ScanAppend(st, a + [u], b);
    ScanAppend(st, a, b);
    assert (a + [u])[..|a + [u]| - 1] == a;
  }

  /**
   * A unit that fails to import adds one failure report naming its module path and the error;
   * the units after it are scanned as if it had not been there.
   */
  lemma FailedUnitIsolated(st: State, a: seq<Unit>, u: Unit, b: seq<Unit>)
    requires !IsPrivate(u.parts) && u.load.LoadFail?
    ensures var s := Scan(st, a);
      Scan(st, a + [u] + b) == Scan(State(s.names, s.log + [ImportFailed(ModulePath(u.parts), u.load.error)]), b)
  {
    ScanAppend(st, a + [u], b);
    assert (a + [u])[..|a + [u]| - 1] == a;
  }

  lemma {:induction false} CandidatesAppend(a: seq<Unit>, b: seq<Unit>)
    ensures Candidates(a + b) == Candidates(a) + Candidates(b)
  {
    if b == [] {
      assert a + b == a;
    } else {
      var b' := b[..|b| - 1];
      assert (a + b)[..|a + b| - 1] == a + b';
      assert (a + b)[|a + b| - 1] == b[|b| - 1];
      assert Candidates(a + b) == Candidates(a + b') + UnitCandidates(b[|b| - 1]);
      CandidatesAppend(a, b');
      assert Candidates(b) == Candidates(b') + UnitCandidates(b[|b| - 1]);
    }
  }

  /** A unit that fails to import does not keep the tools of any other unit out of the set. */
  lemma FailedUnitKeepsOthers(st: State, a: seq<Unit>, u: Unit, b: seq<Unit>, n: string)
    requires u.load.LoadFail?
    requires n in Candidates(a) || n in Candidates(b)
    ensures n in Scan(st, a + [u] + b).names
  {
    CandidatesAppend(a + [u], b);
    CandidatesAppend(a, [u]);
    assert Candidates([u]) == UnitCandidates(u) == [];
    ScanEffect(st, a + [u] + b);
  }
}
