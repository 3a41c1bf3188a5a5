/**
 * Metadata records of Mayavi's sources, filters and modules, and how a record finds the
 * callable that creates its object: a callable factory is used as it is; otherwise a symbol
 * path (`package.module.Name` or `package.module:expression`) is parsed and resolved.
 * Python's import machinery is a parameter: an environment of importable modules and of the
 * attributes of objects.
 */
module MayaviMetadata {
  import opened Common

  // ----- `str.split(sep)` and `sep.join(parts)` -----

  /** Number of occurrences of `c` in `s`. */
  function Count(s: string, c: char): nat
  {
    if s == [] then 0 else (if s[0] == c then 1 else 0) + Count(s[1..], c)
  }

  lemma CountZero(s: string, c: char)
    ensures Count(s, c) == 0 <==> c !in s
  {
    if s != [] {
      CountZero(s[1..], c);
      assert s == [s[0]] + s[1..];
    }
  }

  /** `s.split(c)`: the maximal pieces between occurrences of `c`; never an empty list. */
  function Split(s: string, c: char): (parts: seq<string>)
    ensures |parts| >= 1
  {
    if s == [] then [[]]
    else
      var rest := Split(s[1..], c);
      if s[0] == c then [[]] + rest else [[s[0]] + rest[0]] + rest[1..]
  }

  /** `c.join(parts)`. */
  function Join(parts: seq<string>, c: char): string
  {
    if parts == [] then []
    else if |parts| == 1 then parts[0]
    else parts[0] + [c] + Join(parts[1..], c)
  }

  predicate NoSeparator(parts: seq<string>, c: char)
  {
    forall i :: 0 <= i < |parts| ==> c !in parts[i]
  }

  /** Splitting yields one more piece than there are separators, and no piece holds one. */
  lemma {:induction false} SplitParts(s: string, c: char)
    ensures |Split(s, c)| == Count(s, c) + 1
    ensures NoSeparator(Split(s, c), c)
  {
    if s != [] {
      SplitParts(s[1..], c);
      var rest := Split(s[1..], c);
      if s[0] != c {
        var parts := Split(s, c);
        assert parts[0] == [s[0]] + rest[0];
        forall i | 0 <= i < |parts| ensures c !in parts[i] {
          if i > 0 {
            assert parts[i] == rest[i];
          }
        }
      }
    }
  }

  /** Joining the pieces of a split gives back the string. */
  lemma {:induction false} JoinSplit(s: string, c: char)
    ensures Join(Split(s, c), c) == s
  {
    if s != [] {
      JoinSplit(s[1..], c);
      var rest := Split(s[1..], c);
      if s[0] == c {
        assert Split(s, c)[1..] == rest;
        assert s == [] + [c] + s[1..];
      } else {
        var parts := Split(s, c);
        if |rest| == 1 {
          assert parts == [[s[0]] + rest[0]];
        } else {
          assert parts[1..] == rest[1..];
          assert Join(rest, c) == rest[0] + [c] + Join(rest[1..], c);
          assert s == [s[0]] + s[1..];
        }
      }
    }
  }

  lemma SplitNoSeparator(s: string, c: char)
    requires c !in s
    ensures Split(s, c) == [s]
  {
    if s != [] {
      SplitNoSeparator(s[1..], c);
      assert s == [s[0]] + s[1..];
    }
  }

  /** Splitting a joined list of separator-free pieces gives back the pieces. */
  lemma {:induction false} SplitJoin(parts: seq<string>, c: char)
    requires |parts| >= 1 && NoSeparator(parts, c)
    ensures Split(Join(parts, c), c) == parts
  {
    if |parts| == 1 {
      SplitNoSeparator(parts[0], c);
    } else {
      SplitJoin(parts[1..], c);
      SplitPrefix(parts[0], Join(parts[1..], c), c);
    }
  }

  /** A separator-free head followed by a separator splits into the head and the split of the rest. */
  lemma {:induction false} SplitPrefix(head: string, tail: string, c: char)
    requires c !in head
    ensures Split(head + [c] + tail, c) == [head] + Split(tail, c)
  {
    if head == [] {
      assert [] + [c] + tail == [c] + tail;
      assert ([c] + tail)[1..] == tail;
    } else {
      SplitPrefix(head[1..], tail, c);
      var s := head + [c] + tail;
      assert s[0] == head[0];
      assert s[1..] == head[1..] + [c] + tail;
      assert [head[0]] + head[1..] == head;
    }
  }

  /** A separator followed by a separator-free tail splits off the tail as the last piece. */
  lemma {:induction false} SplitSnoc(s: string, t: string, c: char)
    requires c !in t
    ensures Split(s + [c] + t, c) == Split(s, c) + [t]
  {
    if s == [] {
      assert [] + [c] + t == [c] + t;
      assert ([c] + t)[1..] == t;
      SplitNoSeparator(t, c);
    } else {
      SplitSnoc(s[1..], t, c);
      var u := s + [c] + t;
      assert u[0] == s[0];
      assert u[1..] == s[1..] + [c] + t;
    }
  }

  /** Joining two pieces puts exactly one separator between them. */
  lemma {:induction false} JoinSnoc(parts: seq<string>, last: string, c: char)
    requires parts != []
    ensures Join(parts + [last], c) == Join(parts, c) + [c] + last
  {
    if |parts| == 1 {
      assert (parts + [last])[1..] == [last];
    } else {
      JoinSnoc(parts[1..], last, c);
      assert (parts + [last])[1..] == parts[1..] + [last];
    }
  }

  // ----- `_import_symbol`'s parsing of a path -----

  /** A parsed symbol path: `module:expression`, or a dotted path's module part and last name. */
  datatype SymbolPath = ColonPath(moduleName: string, expr: string) | DottedPath(moduleName: string, name: string)

  datatype ImportError =
    | TooManyColons       // `module_name, symbol_name = path.split(':')` fails to unpack
    | NoModule(m: string) // `__import__` finds no such module (also the empty module name)
    | NoAttribute(a: string) // `getattr` / evaluation of a name finds nothing

  /**
   * A path with a colon must have exactly one, and splits there; any other path splits at its
   * last dot, the module part being empty when there is no dot.
   */
  function ParseSymbolPath(path: string): (r: Result<SymbolPath, ImportError>)
    ensures r.Err? <==> Count(path, ':') >= 2
    ensures r.Ok? && ':' in path ==>
              r.value.ColonPath? && r.value.moduleName + [':'] + r.value.expr == path
              && ':' !in r.value.moduleName && ':' !in r.value.expr
    ensures ':' !in path ==> r.Ok? && r.value.DottedPath? && '.' !in r.value.name
    ensures ':' !in path && '.' in path ==> r.value.moduleName + ['.'] + r.value.name == path
    ensures ':' !in path && '.' !in path ==> r.value == DottedPath([], path)
  {
    SplitParts(path, ':');
    CountZero(path, ':');
    if ':' in path then
      var parts := Split(path, ':');
      if |parts| == 2 then
        JoinSplit(path, ':');
        assert Join(parts, ':') == parts[0] + [':'] + parts[1];
        Ok(ColonPath(parts[0], parts[1]))
      else
        Err(TooManyColons)
    else
      var comps := Split(path, '.');
      SplitParts(path, '.');
      CountZero(path, '.');
      JoinSplit(path, '.');
      if |comps| == 1 then
        Ok(DottedPath(Join(comps[..0], '.'), comps[0]))
      else
        JoinSnoc(comps[..|comps| - 1], comps[|comps| - 1], '.');
        assert comps[..|comps| - 1] + [comps[|comps| - 1]] == comps;
        Ok(DottedPath(Join(comps[..|comps| - 1], '.'), comps[|comps| - 1]))
  }

  /** A dotted path built from a module and a dot-free name parses back into them. */
  lemma DottedRoundTrip(moduleName: string, name: string)
    requires moduleName != [] && ':' !in moduleName && ':' !in name && '.' !in name
    ensures ParseSymbolPath(moduleName + ['.'] + name) == Ok(DottedPath(moduleName, name))
  {
    var path := moduleName + ['.'] + name;
    assert path[|moduleName|] == '.';
    assert ':' !in path by {
      forall i | 0 <= i < |path| ensures path[i] != ':' {
        if i < |moduleName| {
          assert path[i] == moduleName[i];
        } else if i > |moduleName| {
          assert path[i] == name[i - |moduleName| - 1];
        }
      }
    }
    SplitSnoc(moduleName, name, '.');
    var comps := Split(path, '.');
    assert comps[..|comps| - 1] == Split(moduleName, '.');
    JoinSplit(moduleName, '.');
  }

  /** A colon path with a colon-free module and expression parses back into them. */
  lemma ColonRoundTrip(moduleName: string, expr: string)
    requires ':' !in moduleName && ':' !in expr
    ensures ParseSymbolPath(moduleName + [':'] + expr) == Ok(ColonPath(moduleName, expr))
  {
    var path := moduleName + [':'] + expr;
    assert path[|moduleName|] == ':';
    SplitPrefix(moduleName, expr, ':');
    SplitNoSeparator(expr, ':');
  }

  /** A path with two colons is refused. */
  lemma TwoColonsRefused(a: string, b: string, c: string)
    ensures ParseSymbolPath(a + [':'] + b + [':'] + c) == Err(TooManyColons)
  {
    var path := a + [':'] + b + [':'] + c;
    CountAppend(a + [':'] + b, [':'] + c, ':');
    CountAppend(a, [':'] + b, ':');
    CountAppend([':'], b, ':');
    CountAppend([':'], c, ':');
    assert (a + [':'] + b) + ([':'] + c) == path;
    assert a + ([':'] + b) == a + [':'] + b;
  }

  lemma {:induction false} CountAppend(s: string, t: string, c: char)
    ensures Count(s + t, c) == Count(s, c) + Count(t, c)
  {
    if s != [] {
      CountAppend(s[1..], t, c);
      assert (s + t)[1..] == s[1..] + t;
    } else {
      assert s + t == t;
    }
  }

  // ----- `_import_module` and `_import_symbol` -----

  /**
   * What Python's import machinery would find: each importable dotted module name's module
   * object, and the attributes of objects (a module's submodules, classes and functions).
   */
  datatype Env = Env(modules: map<string, nat>, attrs: map<(nat, string), nat>)

  /** `getattr(module, component)` along `components`, in order. */
  function Walk(env: Env, m: nat, components: seq<string>): Result<nat, ImportError>
    decreases components
  {
    if components == [] then Ok(m)
    else if (m, components[0]) in env.attrs then Walk(env, env.attrs[(m, components[0])], components[1..])
    else Err(NoAttribute(components[0]))
  }

  /** Following two lists of attributes in turn is following their concatenation. */
  lemma {:induction false} WalkAppend(env: Env, m: nat, a: seq<string>, b: seq<string>)
    ensures Walk(env, m, a + b) == match Walk(env, m, a)
                                   case Ok(m') => Walk(env, m', b)
                                   case Err(e) => Err(e)
    decreases a
  {
    if a != [] {
      assert (a + b)[0] == a[0] && (a + b)[1..] == a[1..] + b;
      if (m, a[0]) in env.attrs {
        WalkAppend(env, env.attrs[(m, a[0])], a[1..], b);
      }
    } else {
      assert a + b == b;
    }
  }

  /**
   * `_import_module(name)`: `__import__(name)` (the module must be importable, and the empty
   * name never is) hands back the top-level package, from which `components[1:]` are looked up
   * in order.
   */
  function ModuleOf(env: Env, name: string): Result<nat, ImportError>
  {
    var components := Split(name, '.');
    if name != [] && name in env.modules && components[0] in env.modules then Walk(env, env.modules[components[0]], components[1..])
    else Err(NoModule(name))
  }

  /**
   * The environment agrees with its packages along `components`: each module named by a prefix
   * of the components is importable and has the next component as an attribute that is the
   * module of the next longer prefix.
   */
  predicate PackagesAlong(env: Env, components: seq<string>)
  {
    forall k :: 1 <= k < |components| ==> PackageStep(env, components, k)
  }

  /** The package of the first `k` components has the next component as its submodule. */
  predicate PackageStep(env: Env, components: seq<string>, k: nat)
    requires 1 <= k < |components|
  {
    PackageName(components, k) in env.modules && PackageName(components, k + 1) in env.modules
    && (env.modules[PackageName(components, k)], components[k]) in env.attrs
    && env.attrs[(env.modules[PackageName(components, k)], components[k])] == env.modules[PackageName(components, k + 1)]
  }

  /** The dotted name of the package made of the first `k` components. */
  function PackageName(components: seq<string>, k: nat): string
    requires k <= |components|
  {
    Join(components[..k], '.')
  }

  /** Walking from package `components[..k]` along the rest reaches the module of all the components. */
  lemma {:induction false} WalkReachesModule(env: Env, components: seq<string>, k: nat)
    requires 1 <= k <= |components| && PackagesAlong(env, components)
    requires PackageName(components, k) in env.modules
    ensures Join(components, '.') in env.modules
    ensures Walk(env, env.modules[PackageName(components, k)], components[k..]) == Ok(env.modules[Join(components, '.')])
    decreases |components| - k
  {
    if k == |components| {
      assert components[..k] == components;
    } else {
      assert PackageStep(env, components, k);
      assert components[k..][0] == components[k] && components[k..][1..] == components[k + 1..];
      WalkReachesModule(env, components, k + 1);
    }
  }

  /**
   * When the environment's packages agree along a module name, `_import_module` returns that
   * module: `__import__` plus the attribute walk lands on the named module itself.
   */
  lemma ImportModuleFindsModule(env: Env, name: string)
    requires name != [] && name in env.modules && Split(name, '.')[0] in env.modules
    requires PackagesAlong(env, Split(name, '.'))
    ensures ModuleOf(env, name) == Ok(env.modules[name])
  {
    var cs := Split(name, '.');
    JoinSplit(name, '.');
    assert cs[..1] == [cs[0]];
    assert PackageName(cs, 1) == cs[0];
    WalkReachesModule(env, cs, 1);
  }

  /**
   * `_import_symbol(path)`: a colon path imports its module through `_import_module` and
   * evaluates the expression there (only a plain name is modelled); a dotted path imports its
   * module part directly and takes the last name's attribute.
   */
  function SymbolOf(env: Env, path: string): (r: Result<nat, ImportError>)
    ensures ParseSymbolPath(path).Err? ==> r == Err(TooManyColons)
  {
    match ParseSymbolPath(path)
    case Err(e) => Err(e)
    case Ok(ColonPath(m, e)) =>
      (match ModuleOf(env, m)
       case Err(err) => Err(err)
       case Ok(mod) => if (mod, e) in env.attrs then Ok(env.attrs[(mod, e)]) else Err(NoAttribute(e)))
    case Ok(DottedPath(m, n)) =>
      if m == [] || m !in env.modules then Err(NoModule(m))
      else if (env.modules[m], n) in env.attrs then Ok(env.attrs[(env.modules[m], n)])
      else Err(NoAttribute(n))
  }

  /** `module.Name` resolves to the attribute `Name` of the importable `module`. */
  lemma SymbolOfDotted(env: Env, moduleName: string, name: string)
    requires moduleName != [] && ':' !in moduleName && ':' !in name && '.' !in name
    requires moduleName in env.modules && (env.modules[moduleName], name) in env.attrs
    ensures SymbolOf(env, moduleName + ['.'] + name) == Ok(env.attrs[(env.modules[moduleName], name)])
  {
    DottedRoundTrip(moduleName, name);
  }

  /** The metadata `factory` trait: a callable, a string, or (never allowed by the trait) nothing. */
  datatype Factory = NoFactory | CallableFactory(f: nat) | StringFactory(s: string)

  /**
   * `get_callable`'s choice: no symbol path for a callable factory, the factory itself when it
   * is a non-empty string, and `class_name` otherwise.
   */
  function FactoryPath(factory: Factory, className: string): (r: Option<string>)
    ensures r.None? <==> factory.CallableFactory?
    ensures factory.StringFactory? && factory.s != [] ==> r == Some(factory.s)
    ensures (factory.NoFactory? || factory == StringFactory([])) ==> r == Some(className)
  {
    match factory
    case CallableFactory(_) => None
    case StringFactory(s) => if |s| > 0 then Some(s) else Some(className)
    case NoFactory => Some(className)
  }

  /** A metadata record; `symbolImported` is the `symbol_imported` event's last value. */
  class Metadata {
    var id: string
    var className: string
    var factory: Factory
    var symbolImported: Option<nat>

    constructor (id: string, className: string, factory: Factory)
      ensures this.id == id && this.className == className && this.factory == factory
      ensures symbolImported == None
    {
      this.id, this.className, this.factory := id, className, factory;
      symbolImported := None;
    }

    /** `_import_module`: imports the module and follows the remaining components in a loop. */
    static method ImportModule(env: Env, name: string) returns (r: Result<nat, ImportError>)
      ensures r == ModuleOf(env, name)
    {
      var components := Split(name, '.');
      if !(name != [] && name in env.modules && components[0] in env.modules) {
        return Err(NoModule(name));
      }
      var current := env.modules[components[0]];
      var i := 1;
      while i < |components|
        invariant 1 <= i <= |components|
        invariant Walk(env, current, components[i..]) == ModuleOf(env, name)
      {
        assert components[i..][0] == components[i] && components[i..][1..] == components[i + 1..];
        if (current, components[i]) !in env.attrs {
          return Err(NoAttribute(components[i]));
        }
        current := env.attrs[(current, components[i])];
        i := i + 1;
      }
      assert components[i..] == [];
      r := Ok(current);
    }

    /** `_import_symbol`: resolves the path and, when it resolves, records the symbol. */
    method ImportSymbol(env: Env, path: string) returns (r: Result<nat, ImportError>)
      modifies this
      ensures r == SymbolOf(env, path)
      ensures symbolImported == if r.Ok? then Some(r.value) else old(symbolImported)
      ensures id == old(id) && className == old(className) && factory == old(factory)
    {
      var parsed := ParseSymbolPath(path);
      match parsed {
        case Err(e) =>
          return Err(e);
        case Ok(ColonPath(m, e)) =>
          var mod := ImportModule(env, m);
          if mod.Err? {
            return Err(mod.error);
          }
          if (mod.value, e) !in env.attrs {
            return Err(NoAttribute(e));
          }
          r := Ok(env.attrs[(mod.value, e)]);
        case Ok(DottedPath(m, n)) =>
          if m == [] || m !in env.modules {
            return Err(NoModule(m));
          }
          if (env.modules[m], n) !in env.attrs {
            return Err(NoAttribute(n));
          }
          r := Ok(env.attrs[(env.modules[m], n)]);
      }
      symbolImported := Some(r.value);
    }

    /**
     * `get_callable`: a callable factory is returned unchanged and nothing is imported;
     * otherwise the path `FactoryPath` chooses is imported and recorded.
     */
    method GetCallable(env: Env) returns (r: Result<nat, ImportError>)
      modifies this
      ensures factory.CallableFactory? ==> r == Ok(factory.f) && symbolImported == old(symbolImported)
      ensures !factory.CallableFactory? ==> r == SymbolOf(env, FactoryPath(factory, className).value)
      ensures !factory.CallableFactory? ==> symbolImported == if r.Ok? then Some(r.value) else old(symbolImported)
      ensures id == old(id) && className == old(className) && factory == old(factory)
    {
      match FactoryPath(factory, className) {
        case None =>
          r := Ok(factory.f);
        case Some(p) =>
          r := ImportSymbol(env, p);
      }
    }
  }

  /** A dotted class path splits at its last dot. */
  lemma DottedExample()
    ensures ParseSymbolPath("io.vtk.R") == Ok(DottedPath("io.vtk", "R"))
  {
    DottedRoundTrip("io.vtk", "R");
    assert "io.vtk" + ['.'] + "R" == "io.vtk.R";
  }

  /** A colon path splits at its colon. */
  lemma ColonExample()
    ensures ParseSymbolPath("io.vtk:f") == Ok(ColonPath("io.vtk", "f"))
  {
    ColonRoundTrip("io.vtk", "f");
    assert "io.vtk" + [':'] + "f" == "io.vtk:f";
  }

  /** Two colons do not unpack into a module and a symbol. */
  lemma TwoColonsExample()
    ensures ParseSymbolPath("a:b:c") == Err(TooManyColons)
  {
    TwoColonsRefused("a", "b", "c");
    assert "a" + [':'] + "b" + [':'] + "c" == "a:b:c";
  }

  /** A bare name has an empty module part, which no environment can import. */
  lemma BareNameExample(env: Env)
    ensures ParseSymbolPath("R") == Ok(DottedPath([], "R"))
    ensures SymbolOf(env, "R") == Err(NoModule([]))
  {
  }

  /** The environment of the examples: package `io` with submodule `vtk`, which defines `f` and `R`. */
  const ExampleEnv := Env(map["io" := 1, "io.vtk" := 2], map[(2, "f") := 5, (2, "R") := 9, (1, "vtk") := 2])

  lemma ExampleEnvImports()
    ensures ModuleOf(ExampleEnv, "io.vtk") == Ok(2)
  {
    SplitJoin(["io", "vtk"], '.');
    assert Join(["io", "vtk"], '.') == "io.vtk";
    assert Split("io.vtk", '.') == ["io", "vtk"];
  }

  lemma ExampleColonSymbol()
    ensures SymbolOf(ExampleEnv, "io.vtk:f") == Ok(5)
  {
    ColonExample();
    ExampleEnvImports();
  }

  lemma ExampleDottedSymbol()
    ensures SymbolOf(ExampleEnv, "io.vtk.R") == Ok(9)
  {
    DottedExample();
  }

  /** A record with a non-empty string factory resolves the factory, one without resolves its class. */
  method CallableExamples() returns (viaFactory: Result<nat, ImportError>, viaClass: Result<nat, ImportError>, recorded: Option<nat>)
    ensures viaFactory == Ok(5) && viaClass == Ok(9) && recorded == Some(9)
  {
    ExampleColonSymbol();
    ExampleDottedSymbol();
    var withFactory := new Metadata("reader", "io.vtk.R", StringFactory("io.vtk:f"));
    viaFactory := withFactory.GetCallable(ExampleEnv);
    var withoutFactory := new Metadata("reader", "io.vtk.R", StringFactory(""));
    viaClass := withoutFactory.GetCallable(ExampleEnv);
    recorded := withoutFactory.symbolImported;
  }
}
