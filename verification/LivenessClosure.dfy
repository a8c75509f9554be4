/** The transitive closure of the dead-code report: which modules imports keep alive. */
module LivenessClosure {
  import opened Digraph

  type Imports = map<string, set<string>>

  /** `b` is an import of `a` that the closure follows: it must be one of the package's modules. */
  predicate Follows(imports: Imports, modules: set<string>, a: string, b: string) {
    a in imports && b in imports[a] && b in modules
  }

  /** A chain of followed imports. */
  ghost predicate ImportChain(imports: Imports, modules: set<string>, p: seq<string>) {
    |p| >= 1 && forall i :: 0 <= i < |p| - 1 ==> Follows(imports, modules, p[i], p[i + 1])
  }

  ghost predicate ReachableFrom(imports: Imports, modules: set<string>, roots: set<string>, m: string) {
    exists p :: ImportChain(imports, modules, p) && p[0] in roots && p[|p| - 1] == m
  }

  ghost predicate ClosedUnderImports(imports: Imports, modules: set<string>, s: set<string>) {
    forall a, b :: a in s && Follows(imports, modules, a, b) ==> b in s
  }

  lemma ReachExtends(imports: Imports, modules: set<string>, roots: set<string>, a: string, b: string)
    requires ReachableFrom(imports, modules, roots, a) && Follows(imports, modules, a, b)
    ensures ReachableFrom(imports, modules, roots, b)
  {
    var p :| ImportChain(imports, modules, p) && p[0] in roots && p[|p| - 1] == a;
    var q := p + [b];
    forall i | 0 <= i < |q| - 1 ensures Follows(imports, modules, q[i], q[i + 1]) {
      if i < |p| - 1 { assert Follows(imports, modules, p[i], p[i + 1]); }
    }
    assert ImportChain(imports, modules, q);
  }

  /** A set that contains the roots and is closed contains every chain from a root. */
  lemma {:induction false} ChainStaysInside(imports: Imports, modules: set<string>, s: set<string>, p: seq<string>)
    requires ClosedUnderImports(imports, modules, s)
    requires ImportChain(imports, modules, p) && p[0] in s
    ensures p[|p| - 1] in s
  {
    if |p| > 1 {
      var q := p[..|p| - 1];
      forall i | 0 <= i < |q| - 1 ensures Follows(imports, modules, q[i], q[i + 1]) {
        assert Follows(imports, modules, p[i], p[i + 1]);
      }
      ChainStaysInside(imports, modules, s, q);
      assert Follows(imports, modules, p[|p| - 2], p[|p| - 1]);
    }
  }

  /** Between the roots and the reachable modules. */
  ghost predicate Sound(imports: Imports, modules: set<string>, roots: set<string>, alive: set<string>) {
    roots <= alive <= modules && forall m :: m in alive ==> ReachableFrom(imports, modules, roots, m)
  }

  /** Every import followed from `done` leads into `alive`. */
  ghost predicate Covers(imports: Imports, modules: set<string>, done: set<string>, alive: set<string>) {
    forall a, b :: a in done && Follows(imports, modules, a, b) ==> b in alive
  }

  lemma SoundIsLeast(imports: Imports, modules: set<string>, roots: set<string>, alive: set<string>)
    requires Sound(imports, modules, roots, alive)
    ensures forall s :: roots <= s && ClosedUnderImports(imports, modules, s) ==> alive <= s
  {
    forall s, m | roots <= s && ClosedUnderImports(imports, modules, s) && m in alive ensures m in s {
      var p :| ImportChain(imports, modules, p) && p[0] in roots && p[|p| - 1] == m;
      ChainStaysInside(imports, modules, s, p);
    }
  }

  lemma ClosedIsComplete(imports: Imports, modules: set<string>, roots: set<string>, alive: set<string>)
    requires roots <= alive && Covers(imports, modules, alive, alive)
    ensures forall m :: ReachableFrom(imports, modules, roots, m) ==> m in alive
  {
    forall m | ReachableFrom(imports, modules, roots, m) ensures m in alive {
      var p :| ImportChain(imports, modules, p) && p[0] in roots && p[|p| - 1] == m;
      ChainStaysInside(imports, modules, alive, p);
    }
  }

  /** The innermost loop: adds the imports of one live module. */
  method AddImports(imports: Imports, modules: set<string>, ghost roots: set<string>, mod: string, alive0: set<string>)
    returns (alive: set<string>)
    requires Sound(imports, modules, roots, alive0) && mod in alive0
    ensures Sound(imports, modules, roots, alive) && alive0 <= alive
    ensures Covers(imports, modules, {mod}, alive)
  {
    alive := alive0;
    var deps := if mod in imports then imports[mod] else {};
    while deps != {}
      invariant deps <= (if mod in imports then imports[mod] else {})
      invariant Sound(imports, modules, roots, alive) && alive0 <= alive
      invariant forall b :: Follows(imports, modules, mod, b) && b !in deps ==> b in alive
      decreases deps
    {
      var dep :| dep in deps;
      deps := deps - {dep};
      if dep in modules && dep !in alive {
        ReachExtends(imports, modules, roots, mod, dep);
        alive := alive + {dep};
      }
    }
  }

  /** One pass over a snapshot of the live modules. */
  method Pass(imports: Imports, modules: set<string>, ghost roots: set<string>, alive0: set<string>)
    returns (alive: set<string>)
    requires Sound(imports, modules, roots, alive0)
    ensures Sound(imports, modules, roots, alive) && alive0 <= alive
    ensures Covers(imports, modules, alive0, alive)
  {
    alive := alive0;
    var pass := alive0;
    while pass != {}
      invariant pass <= alive0 <= alive && Sound(imports, modules, roots, alive)
      invariant Covers(imports, modules, alive0 - pass, alive)
      decreases pass
    {
      var mod :| mod in pass;
      pass := pass - {mod};
      alive := AddImports(imports, modules, roots, mod, alive);
    }
  }

  /** The modules alive are exactly those reachable from the directly live ones: the least
      closed set containing them. What is left is dead, and nothing alive imports it. */
  method Closure(modules: set<string>, imports: Imports, directlyLive: set<string>)
    returns (alive: set<string>, dead: set<string>)
    requires directlyLive <= modules
    ensures forall m :: m in alive <==> ReachableFrom(imports, modules, directlyLive, m)
    ensures alive !! dead && alive + dead == modules
    ensures forall a, b :: a in alive && a in imports && b in imports[a] ==> b !in dead
    ensures forall s :: directlyLive <= s && ClosedUnderImports(imports, modules, s) ==> alive <= s
  {
    alive := directlyLive;
    forall m | m in alive ensures ReachableFrom(imports, modules, directlyLive, m) {
      assert ImportChain(imports, modules, [m]);
    }
    var changed := true;
    while changed
      invariant Sound(imports, modules, directlyLive, alive)
      invariant !changed ==> Covers(imports, modules, alive, alive)
      decreases modules - alive, changed
    {
      var next := Pass(imports, modules, directlyLive, alive);
      changed := next != alive;
      alive := next;
    }
    dead := modules - alive;
    SoundIsLeast(imports, modules, directlyLive, alive);
    ClosedIsComplete(imports, modules, directlyLive, alive);
    forall a, b | a in alive && a in imports && b in imports[a] ensures b !in dead {
      if b in modules { assert Follows(imports, modules, a, b); }
    }
  }
}
