/** The profile composer: a YAML manifest of components becomes a program of abstract
    statements that instantiates them, wires them together and runs their init hooks. */
module Compositions {
  import opened Common

  /** A declared component; `isFactory` components are made at run time, not by the program. */
  datatype Decl = Decl(ifaces: seq<string>, hook: Option<string>, isFactory: bool, receptacles: seq<string>)
  datatype Wiring = Wiring(target: string, source: string, iface: Option<string>)
  datatype Export = Export(component: string, iface: string)
  datatype Manifest = Manifest(components: map<string, Decl>, wiring: seq<Wiring>, initOrder: seq<string>,
                               exports: seq<Export>)

  // --- Names ---

  function Split(s: string, sep: char): (parts: seq<string>)
    ensures parts != []
  {
    if s == "" then [""]
    else if s[0] == sep then [""] + Split(s[1..], sep)
    else
      var rest := Split(s[1..], sep);
      [[s[0]] + rest[0]] + rest[1..]
  }

  lemma {:induction false} SplitWhole(s: string, sep: char)
    requires sep !in s
    ensures Split(s, sep) == [s]
  {
    if s != "" {
      SplitWhole(s[1..], sep);
      assert [s[0]] + s[1..] == s;
    }
  }

  /** A target names exactly the component before its dot and the receptacle after it. */
  lemma {:induction false} SplitTarget(component: string, receptacle: string)
    requires '.' !in component && '.' !in receptacle
    ensures Split(component + "." + receptacle, '.') == [component, receptacle]
  {
    var s := component + "." + receptacle;
    if component == "" {
      assert s[1..] == receptacle;
      SplitWhole(receptacle, '.');
    } else {
      assert s[1..] == component[1..] + "." + receptacle;
      SplitTarget(component[1..], receptacle);
      assert [component[0]] + component[1..] == component;
    }
  }

  function Lower(s: string): (r: string) {
    seq(|s|, i requires 0 <= i < |s| => if 'A' <= s[i] <= 'Z' then s[i] - 'A' + 'a' else s[i])
  }

  function TrimI(s: string): (r: string) {
    if s != "" && s[0] == 'i' then TrimI(s[1..]) else s
  }

  function CompVar(name: string): (r: string) {
    "comp_" + name
  }

  function IfaceVar(name: string, iface: string): (r: string) {
    "iface_" + name + "_" + TrimI(Lower(iface))
  }

  lemma VarsApart(a: string, b: string, iface: string)
    ensures CompVar(a) == CompVar(b) ==> a == b
    ensures CompVar(a) != IfaceVar(b, iface)
  {
    assert CompVar(a)[0] == 'c' && IfaceVar(b, iface)[0] == 'i';
    if CompVar(a) == CompVar(b) {
      assert a == CompVar(a)[5..] && b == CompVar(b)[5..];
    }
  }

  // --- Validation ---

  ghost predicate WiringAccepted(m: Manifest, w: Wiring) {
    |Split(w.target, '.')| == 2 && Split(w.target, '.')[0] in m.components && w.source in m.components
  }

  ghost predicate ExportAccepted(m: Manifest, e: Export) {
    e.component in m.components && e.iface in m.components[e.component].ifaces
  }

  ghost predicate Accepted(m: Manifest) {
    && (forall i :: 0 <= i < |m.wiring| ==> WiringAccepted(m, m.wiring[i]))
    && (forall n :: n in m.components && m.components[n].hook.Some? ==> n in m.initOrder)
    && (forall i :: 0 <= i < |m.initOrder| ==> m.initOrder[i] in m.components)
    && (forall i :: 0 <= i < |m.exports| ==> ExportAccepted(m, m.exports[i]))
  }

  /** Checks every reference, in turn; panics at the first bad one. */
  method ValidateManifest(m: Manifest) returns (o: Outcome)
    ensures o.Ok? <==> Accepted(m)
  {
    for i := 0 to |m.wiring|
      invariant forall k :: 0 <= k < i ==> WiringAccepted(m, m.wiring[k])
    {
      var w := m.wiring[i];
      var parts := Split(w.target, '.');
      if |parts| != 2 || parts[0] !in m.components || w.source !in m.components {
        assert !WiringAccepted(m, w);
        return Raised;
      }
    }
    var names := m.components.Keys;
    while names != {}
      invariant names <= m.components.Keys
      invariant forall n :: n in m.components && n !in names && m.components[n].hook.Some? ==> n in m.initOrder
      decreases |names|
    {
      var n :| n in names;
      if m.components[n].hook.Some? && n !in m.initOrder {
        return Raised;
      }
      names := names - {n};
    }
    for i := 0 to |m.initOrder|
      invariant forall k :: 0 <= k < i ==> m.initOrder[k] in m.components
    {
      if m.initOrder[i] !in m.components {
        return Raised;
      }
    }
    for i := 0 to |m.exports|
      invariant forall k :: 0 <= k < i ==> ExportAccepted(m, m.exports[k])
    {
      var e := m.exports[i];
      if e.component !in m.components || e.iface !in m.components[e.component].ifaces {
        assert !ExportAccepted(m, e);
        return Raised;
      }
    }
    return Ok;
  }

  // --- The generated program ---

  datatype Stmt =
    | Instantiate(name: string)
    | Query(ifaceVar: string, name: string, iface: string)
    | Connect(name: string, receptacle: string, ifaceVar: string)
    | Inject(name: string)
    | CallHook(hook: string, ifaceVar: string)
    | MakeChannel
    | Return(fields: seq<Export>, ifaceVars: seq<string>)

  ghost predicate Known(m: Manifest, names: seq<string>) {
    forall i :: 0 <= i < |names| ==> names[i] in m.components
  }

  /** Those made by the program, in order. */
  function Singles(m: Manifest, names: seq<string>): (r: seq<string>)
    requires Known(m, names)
    ensures Known(m, r) && forall n :: n in r <==> n in names && !m.components[n].isFactory
  {
    if names == [] then [] else
      var n := names[|names| - 1];
      assert names == names[..|names| - 1] + [n];
      Singles(m, names[..|names| - 1]) + if m.components[n].isFactory then [] else [n]
  }

  /** Those of them not in the init order. */
  function Others(m: Manifest, names: seq<string>): (r: seq<string>)
    requires Known(m, names)
    ensures Known(m, r) && forall n :: n in r <==> n in names && !m.components[n].isFactory && n !in m.initOrder
  {
    if names == [] then [] else
      var n := names[|names| - 1];
      assert names == names[..|names| - 1] + [n];
      Others(m, names[..|names| - 1]) + if m.components[n].isFactory || n in m.initOrder then [] else [n]
  }

  function Instances(names: seq<string>): (r: seq<Stmt>) {
    seq(|names|, i requires 0 <= i < |names| => Instantiate(names[i]))
  }

  function QueriesOf(name: string, ifaces: seq<string>): (r: seq<Stmt>) {
    seq(|ifaces|, i requires 0 <= i < |ifaces| => Query(IfaceVar(name, ifaces[i]), name, ifaces[i]))
  }

  function Queries(m: Manifest, names: seq<string>): (r: seq<Stmt>)
    requires Known(m, names)
  {
    if names == [] then [] else
      var n := names[|names| - 1];
      Queries(m, names[..|names| - 1]) + QueriesOf(n, m.components[n].ifaces)
  }

  /** A wiring's source must provide an interface: the first is looked at even when the wiring
      names another. */
  ghost predicate Choosable(m: Manifest, w: Wiring) {
    WiringAccepted(m, w) && m.components[w.source].ifaces != []
  }

  /** The interface a wiring connects: the one it names, or the source's first. */
  function Chosen(m: Manifest, w: Wiring): (r: string)
    requires Choosable(m, w)
  {
    match w.iface
    case Some(iface) => iface
    case None => m.components[w.source].ifaces[0]
  }

  function ConnectOf(m: Manifest, w: Wiring): (r: Stmt)
    requires Choosable(m, w)
  {
    var parts := Split(w.target, '.');
    Connect(parts[0], parts[1], IfaceVar(w.source, Chosen(m, w)))
  }

  function Connects(m: Manifest, wiring: seq<Wiring>): (r: seq<Stmt>)
    requires forall i :: 0 <= i < |wiring| ==> Choosable(m, wiring[i])
  {
    seq(|wiring|, i requires 0 <= i < |wiring| => ConnectOf(m, wiring[i]))
  }

  predicate Injectable(name: string) {
    name == "block_device" || name == "extent_manager"
  }

  function Injects(m: Manifest, names: seq<string>): (r: seq<Stmt>)
    requires Known(m, names)
  {
    if names == [] then [] else
      var n := names[|names| - 1];
      Injects(m, names[..|names| - 1]) + if m.components[n].isFactory && Injectable(n) then [Inject(n)] else []
  }

  ghost predicate Hookable(m: Manifest, names: seq<string>) {
    && Known(m, names)
    && forall i :: 0 <= i < |names| && m.components[names[i]].hook.Some? ==> m.components[names[i]].ifaces != []
  }

  function Hooks(m: Manifest, names: seq<string>): (r: seq<Stmt>)
    requires Hookable(m, names)
  {
    if names == [] then [] else
      var n := names[|names| - 1];
      var d := m.components[n];
      Hooks(m, names[..|names| - 1]) + if d.hook.Some? then [CallHook(d.hook.value, IfaceVar(n, d.ifaces[0]))] else []
  }

  function ReturnOf(exports: seq<Export>): (r: Stmt) {
    Return(exports, seq(|exports|, i requires 0 <= i < |exports| => IfaceVar(exports[i].component, exports[i].iface)))
  }

  /** The generator needs a dispatcher, an interface wherever it takes the first one, and only
      receptacles it knows on the block device. */
  ghost predicate Generable(m: Manifest) {
    && "dispatcher" in m.components
    && (forall i :: 0 <= i < |m.wiring| ==> Choosable(m, m.wiring[i]))
    && Known(m, m.initOrder) && Hookable(m, Singles(m, m.initOrder))
    && ("block_device" in m.components && m.components["block_device"].isFactory ==>
          forall r :: r in m.components["block_device"].receptacles ==> r == "spdk_env" || r == "logger")
  }

  function Program(m: Manifest, order: seq<string>): (r: seq<Stmt>)
    requires Generable(m) && Known(m, order)
  {
    Instances(Singles(m, m.initOrder) + Others(m, order)) + Queries(m, Singles(m, order)) + Connects(m, m.wiring)
    + Injects(m, order) + Hooks(m, Singles(m, m.initOrder)) + [MakeChannel, ReturnOf(m.exports)]
  }

  // --- Running a program ---

  datatype Value = Comp(name: string) | Iface(name: string, iface: string)
  datatype Event =
    | Made(name: string)
    | Connected(name: string, receptacle: string, value: Value)
    | Injected(name: string)
    | Hooked(hook: string, value: Value)
    | Returned(fields: seq<Export>, values: seq<Value>)

  /** The variables in scope, and what has happened. */
  datatype Run = Run(vars: map<string, Value>, log: seq<Event>)

  const BLANK := Run(map[], [])

  /** One statement; None when it uses a variable that is not defined, or of the wrong sort, or
      asks a component for an interface it does not provide. */
  ghost function Step(m: Manifest, r: Run, s: Stmt): Option<Run> {
    match s
    case Instantiate(n) => Some(Run(r.vars[CompVar(n) := Comp(n)], r.log + [Made(n)]))
    case Query(v, n, iface) =>
      if CompVar(n) in r.vars && r.vars[CompVar(n)].Comp? && r.vars[CompVar(n)].name in m.components
         && iface in m.components[r.vars[CompVar(n)].name].ifaces
      then Some(r.(vars := r.vars[v := Iface(r.vars[CompVar(n)].name, iface)])) else None
    case Connect(n, receptacle, v) =>
      if CompVar(n) in r.vars && r.vars[CompVar(n)].Comp? && v in r.vars && r.vars[v].Iface?
      then Some(r.(log := r.log + [Connected(r.vars[CompVar(n)].name, receptacle, r.vars[v])])) else None
    case Inject(n) =>
      if CompVar("dispatcher") in r.vars && r.vars[CompVar("dispatcher")] == Comp("dispatcher")
      then Some(r.(log := r.log + [Injected(n)])) else None
    case CallHook(h, v) =>
      if v in r.vars && r.vars[v].Iface? then Some(r.(log := r.log + [Hooked(h, r.vars[v])])) else None
    case MakeChannel =>
      if CompVar("dispatcher") in r.vars && r.vars[CompVar("dispatcher")] == Comp("dispatcher") then Some(r) else None
    case Return(fields, vs) =>
      if |fields| == |vs| && forall i :: 0 <= i < |vs| ==> vs[i] in r.vars && r.vars[vs[i]].Iface?
      then Some(r.(log := r.log +
                     [Returned(fields, seq(|vs|, i requires 0 <= i < |vs| && vs[i] in r.vars => r.vars[vs[i]]))]))
      else None
  }

  ghost function Exec(m: Manifest, r: Run, code: seq<Stmt>): Option<Run>
    decreases |code|
  {
    if code == [] then Some(r)
    else match Exec(m, r, code[..|code| - 1])
         case Some(r') => Step(m, r', code[|code| - 1])
         case None => None
  }

  lemma ExecNext(m: Manifest, r: Run, code: seq<Stmt>, s: Stmt)
    requires Exec(m, r, code).Some?
    ensures Exec(m, r, code + [s]) == Step(m, Exec(m, r, code).value, s)
  {
    assert (code + [s])[..|code|] == code;
  }

  lemma {:induction false} ExecJoin(m: Manifest, r: Run, a: seq<Stmt>, b: seq<Stmt>)
    requires Exec(m, r, a).Some?
    ensures Exec(m, r, a + b) == Exec(m, Exec(m, r, a).value, b)
    decreases |b|
  {
    if b == [] {
      assert a + b == a;
    } else {
      assert (a + b)[..|a + b| - 1] == a + b[..|b| - 1];
      ExecJoin(m, r, a, b[..|b| - 1]);
    }
  }

  // --- What the manifest means ---

  ghost predicate Single(m: Manifest, name: string) {
    name in m.components && !m.components[name].isFactory
  }

  ghost predicate Offers(m: Manifest, name: string, iface: string) {
    Single(m, name) && iface in m.components[name].ifaces
  }

  /** One iteration order of the component map. */
  ghost predicate OrderOf(m: Manifest, order: seq<string>) {
    NoDup(order) && forall n :: n in order <==> n in m.components
  }

  function Mades(names: seq<string>): (r: seq<Event>) {
    seq(|names|, i requires 0 <= i < |names| => Made(names[i]))
  }

  function WiredOne(m: Manifest, w: Wiring): (r: Event)
    requires Choosable(m, w)
  {
    var parts := Split(w.target, '.');
    Connected(parts[0], parts[1], Iface(w.source, Chosen(m, w)))
  }

  /** Each wiring's receptacle, connected to the interface it names. */
  function Wired(m: Manifest, wiring: seq<Wiring>): (r: seq<Event>)
    requires forall i :: 0 <= i < |wiring| ==> Choosable(m, wiring[i])
  {
    seq(|wiring|, i requires 0 <= i < |wiring| => WiredOne(m, wiring[i]))
  }

  function InjectedAll(m: Manifest, names: seq<string>): (r: seq<Event>)
    requires Known(m, names)
  {
    if names == [] then [] else
      var n := names[|names| - 1];
      InjectedAll(m, names[..|names| - 1]) + if m.components[n].isFactory && Injectable(n) then [Injected(n)] else []
  }

  function HookedAll(m: Manifest, names: seq<string>): (r: seq<Event>)
    requires Hookable(m, names)
  {
    if names == [] then [] else
      var n := names[|names| - 1];
      var d := m.components[n];
      HookedAll(m, names[..|names| - 1]) + if d.hook.Some? then [Hooked(d.hook.value, Iface(n, d.ifaces[0]))] else []
  }

  function Exported(exports: seq<Export>): (r: Event) {
    Returned(exports, seq(|exports|, i requires 0 <= i < |exports| => Iface(exports[i].component, exports[i].iface)))
  }

  /** What the manifest asks for: every component made, then every wiring in order, then the
      factories, then the hooks in init order, then the exports. */
  function Meaning(m: Manifest, order: seq<string>): (r: seq<Event>)
    requires Generable(m) && Known(m, order)
  {
    Mades(Singles(m, m.initOrder) + Others(m, order)) + Wired(m, m.wiring) + InjectedAll(m, order)
    + HookedAll(m, Singles(m, m.initOrder)) + [Exported(m.exports)]
  }

  // --- The phases ---

  ghost predicate CompsIn(vars: map<string, Value>, names: seq<string>) {
    forall n :: n in names ==> CompVar(n) in vars && vars[CompVar(n)] == Comp(n)
  }

  lemma {:induction false} InstancesRun(m: Manifest, names: seq<string>)
    ensures var r := Exec(m, BLANK, Instances(names));
            && r.Some? && CompsIn(r.value.vars, names) && r.value.log == Mades(names)
            && forall n, x :: IfaceVar(n, x) !in r.value.vars
    decreases |names|
  {
    if names != [] {
      var k := |names| - 1;
      InstancesRun(m, names[..k]);
      assert Instances(names)[..k] == Instances(names[..k]);
      assert Mades(names) == Mades(names[..k]) + [Made(names[k])];
      assert names == names[..k] + [names[k]];
      forall n ensures CompVar(n) == CompVar(names[k]) ==> n == names[k] {
        VarsApart(n, names[k], "");
      }
      forall n, x ensures CompVar(names[k]) != IfaceVar(n, x) {
        VarsApart(names[k], n, x);
      }
    }
  }

  /** The first k interfaces of a component. */
  ghost function PairsOf(m: Manifest, n: string, k: nat): set<(string, string)>
    requires n in m.components && k <= |m.components[n].ifaces|
  {
    set x | x in m.components[n].ifaces[..k] :: (n, x)
  }

  ghost function AllPairs(m: Manifest, names: seq<string>): set<(string, string)>
    requires Known(m, names)
  {
    if names == [] then {} else
      var n := names[|names| - 1];
      AllPairs(m, names[..|names| - 1]) + PairsOf(m, n, |m.components[n].ifaces|)
  }

  lemma {:induction false} AllPairsAre(m: Manifest, names: seq<string>, n: string, x: string)
    requires Known(m, names)
    ensures (n, x) in AllPairs(m, names) <==> n in names && x in m.components[n].ifaces
    decreases |names|
  {
    if names != [] {
      var k := |names| - 1;
      AllPairsAre(m, names[..k], n, x);
      assert names == names[..k] + [names[k]];
      var xs := m.components[names[k]].ifaces;
      assert xs[..|xs|] == xs;
    }
  }

  lemma {:induction false} SinglesOnce(m: Manifest, names: seq<string>)
    requires Known(m, names) && NoDup(names)
    ensures NoDup(Singles(m, names)) && NoDup(Others(m, names))
    decreases |names|
  {
    if names != [] {
      var k := |names| - 1;
      SinglesOnce(m, names[..k]);
      assert forall n :: n in names[..k] ==> n != names[k];
    }
  }

  /** Each non-factory component is made exactly once. */
  lemma MadeOnce(m: Manifest, order: seq<string>)
    requires Known(m, m.initOrder) && NoDup(m.initOrder) && OrderOf(m, order) && Known(m, order)
    ensures var made := Singles(m, m.initOrder) + Others(m, order);
            NoDup(made) && forall n :: n in made <==> Single(m, n)
  {
    SinglesOnce(m, m.initOrder);
    SinglesOnce(m, order);
    var a, b := Singles(m, m.initOrder), Others(m, order);
    assert forall n :: n in a ==> n !in b;
    assert forall i :: 0 <= i < |a| ==> a[i] in a;
    assert forall i :: 0 <= i < |b| ==> b[i] in b;
  }

  // --- Definitions before uses, exactly ---

  function DefOf(s: Stmt): (v: Option<string>) {
    match s
    case Instantiate(n) => Some(CompVar(n))
    case Query(v, _, _) => Some(v)
    case _ => None
  }

  function UsesOf(s: Stmt): (vs: set<string>) {
    match s
    case Instantiate(_) => {}
    case Query(_, n, _) => {CompVar(n)}
    case Connect(n, _, v) => {CompVar(n), v}
    case Inject(_) => {CompVar("dispatcher")}
    case CallHook(_, v) => {v}
    case MakeChannel => {CompVar("dispatcher")}
    case Return(_, vs) => set v | v in vs
  }

  ghost function Defs(code: seq<Stmt>): set<string> {
    if code == [] then {} else
      var k := |code| - 1;
      Defs(code[..k]) + match DefOf(code[k]) case Some(v) => {v} case None => {}
  }

  /** With the variables d in scope, every statement uses only those and ones defined before it. */
  ghost predicate ScopedAfter(d: set<string>, code: seq<Stmt>)
    decreases |code|
  {
    code == [] || var k := |code| - 1; ScopedAfter(d, code[..k]) && UsesOf(code[k]) <= d + Defs(code[..k])
  }

  lemma {:induction false} ScopedJoin(d: set<string>, a: seq<Stmt>, b: seq<Stmt>)
    ensures Defs(a + b) == Defs(a) + Defs(b)
    ensures ScopedAfter(d, a + b) <==> ScopedAfter(d, a) && ScopedAfter(d + Defs(a), b)
    decreases |b|
  {
    if b == [] {
      assert a + b == a;
    } else {
      var k := |b| - 1;
      assert (a + b)[..|a + b| - 1] == a + b[..k];
      ScopedJoin(d, a, b[..k]);
      assert d + Defs(a + b[..k]) == d + Defs(a) + Defs(b[..k]);
    }
  }

  lemma {:induction false} ScopedUses(d: set<string>, code: seq<Stmt>)
    requires Defless(code)
    ensures Defs(code) == {}
    ensures ScopedAfter(d, code) <==> UsesIn(d, code)
    decreases |code|
  {
    if code != [] {
      var k := |code| - 1;
      ScopedUses(d, code[..k]);
      assert d + Defs(code[..k]) == d;
      assert forall i :: 0 <= i < k ==> code[..k][i] == code[i];
    }
  }

  lemma {:induction false} InstancesScoped(d: set<string>, names: seq<string>)
    ensures ScopedAfter(d, Instances(names))
    ensures Defs(Instances(names)) == set n | n in names :: CompVar(n)
    decreases |names|
  {
    if names != [] {
      var k := |names| - 1;
      InstancesScoped(d, names[..k]);
      assert Instances(names)[..k] == Instances(names[..k]);
      assert names == names[..k] + [names[k]];
    }
  }

  lemma {:induction false} QueriesOfScoped(d: set<string>, n: string, xs: seq<string>)
    requires CompVar(n) in d
    ensures ScopedAfter(d, QueriesOf(n, xs))
    ensures Defs(QueriesOf(n, xs)) == set x | x in xs :: IfaceVar(n, x)
    decreases |xs|
  {
    if xs != [] {
      var k := |xs| - 1;
      QueriesOfScoped(d, n, xs[..k]);
      assert QueriesOf(n, xs)[..k] == QueriesOf(n, xs[..k]);
      assert xs == xs[..k] + [xs[k]];
    }
  }

  /** The variables of these interfaces. */
  ghost function VarsOf(pairs: set<(string, string)>): set<string> {
    set p | p in pairs :: IfaceVar(p.0, p.1)
  }

  lemma VarsJoin(a: set<(string, string)>, b: set<(string, string)>)
    ensures VarsOf(a + b) == VarsOf(a) + VarsOf(b)
  {
  }

  lemma VarsOfOne(m: Manifest, n: string)
    requires n in m.components
    ensures VarsOf(PairsOf(m, n, |m.components[n].ifaces|)) == set x | x in m.components[n].ifaces :: IfaceVar(n, x)
  {
    var xs := m.components[n].ifaces;
    assert xs[..|xs|] == xs;
    var pairs := PairsOf(m, n, |xs|);
    forall x | x in xs ensures IfaceVar(n, x) in VarsOf(pairs) {
      assert (n, x) in pairs;
    }
  }

  lemma {:induction false} QueriesScoped(m: Manifest, d: set<string>, names: seq<string>)
    requires Known(m, names) && forall n :: n in names ==> CompVar(n) in d
    ensures ScopedAfter(d, Queries(m, names)) && Defs(Queries(m, names)) == VarsOf(AllPairs(m, names))
    decreases |names|
  {
    if names != [] {
      var k := |names| - 1;
      var n, xs := names[k], m.components[names[k]].ifaces;
      assert names == names[..k] + [n];
      QueriesScoped(m, d, names[..k]);
      QueriesOfScoped(d + Defs(Queries(m, names[..k])), n, xs);
      ScopedJoin(d, Queries(m, names[..k]), QueriesOf(n, xs));
      VarsOfOne(m, n);
      VarsJoin(AllPairs(m, names[..k]), PairsOf(m, n, |xs|));
    }
  }

  /** Some interface has this variable. */
  ghost predicate Resolved(m: Manifest, v: string) {
    exists n, x :: Offers(m, n, x) && v == IfaceVar(n, x)
  }

  ghost predicate WiringsResolved(m: Manifest)
    requires Accepted(m) && Generable(m)
  {
    forall i :: 0 <= i < |m.wiring| ==>
      Single(m, Split(m.wiring[i].target, '.')[0]) && Resolved(m, IfaceVar(m.wiring[i].source, Chosen(m, m.wiring[i])))
  }

  ghost predicate ExportsResolved(m: Manifest) {
    forall i :: 0 <= i < |m.exports| ==> Resolved(m, IfaceVar(m.exports[i].component, m.exports[i].iface))
  }

  /** The dispatcher is made by the program, wirings go to components it makes, and wired and
      exported interfaces have variables. */
  ghost predicate ScopeOk(m: Manifest)
    requires Accepted(m) && Generable(m)
  {
    Single(m, "dispatcher") && WiringsResolved(m) && ExportsResolved(m)
  }

  /** d holds exactly the variables of the components made and of the interfaces they offer. */
  ghost predicate Covers(m: Manifest, d: set<string>) {
    && (forall n :: CompVar(n) in d <==> Single(m, n))
    && (forall n, x :: IfaceVar(n, x) in d <==> Resolved(m, IfaceVar(n, x)))
  }

  /** What instantiation and queries put in scope. */
  lemma HeadScoped(m: Manifest, order: seq<string>) returns (d: set<string>)
    requires Known(m, m.initOrder) && OrderOf(m, order) && Known(m, order)
    ensures var head := Instances(Singles(m, m.initOrder) + Others(m, order)) + Queries(m, Singles(m, order));
            ScopedAfter({}, head) && Defs(head) == d
    ensures Covers(m, d)
  {
    var comps, singles := Singles(m, m.initOrder) + Others(m, order), Singles(m, order);
    var pairs := AllPairs(m, singles);
    CompsAre(m, order);
    HeadDefs(m, comps, singles);
    d := (set c | c in comps :: CompVar(c)) + VarsOf(pairs);
    assert Covers(m, d) by {
      PairsAre(m, order);
      CompsCovered(m, comps, pairs);
      IfacesCovered(m, comps, pairs);
    }
  }

  lemma HeadDefs(m: Manifest, comps: seq<string>, singles: seq<string>)
    requires Known(m, singles) && forall n :: n in singles ==> n in comps
    ensures var head := Instances(comps) + Queries(m, singles);
            ScopedAfter({}, head) && Defs(head) == (set c | c in comps :: CompVar(c)) + VarsOf(AllPairs(m, singles))
  {
    InstancesScoped({}, comps);
    var made := Defs(Instances(comps));
    QueriesScoped(m, made, singles);
    assert {} + made == made;
    ScopedJoin({}, Instances(comps), Queries(m, singles));
  }

  lemma CompsAre(m: Manifest, order: seq<string>)
    requires Known(m, m.initOrder) && OrderOf(m, order) && Known(m, order)
    ensures forall n :: n in Singles(m, m.initOrder) + Others(m, order) <==> Single(m, n)
    ensures forall n :: n in Singles(m, order) <==> Single(m, n)
  {
  }

  lemma PairsAre(m: Manifest, order: seq<string>)
    requires OrderOf(m, order) && Known(m, order)
    ensures forall n, x :: (n, x) in AllPairs(m, Singles(m, order)) <==> Offers(m, n, x)
  {
    forall n, x ensures (n, x) in AllPairs(m, Singles(m, order)) <==> Offers(m, n, x) {
      AllPairsAre(m, Singles(m, order), n, x);
    }
  }

  lemma CompsCovered(m: Manifest, comps: seq<string>, pairs: set<(string, string)>)
    requires forall n :: n in comps <==> Single(m, n)
    ensures forall n :: CompVar(n) in (set c | c in comps :: CompVar(c)) + VarsOf(pairs) <==> Single(m, n)
  {
    forall n ensures CompVar(n) in (set c | c in comps :: CompVar(c)) + VarsOf(pairs) <==> Single(m, n) {
      forall p | p in pairs ensures CompVar(n) != IfaceVar(p.0, p.1) {
        VarsApart(n, p.0, p.1);
      }
      forall c | c in comps ensures CompVar(n) == CompVar(c) ==> n == c {
        VarsApart(n, c, "");
      }
    }
  }

  lemma IfacesCovered(m: Manifest, comps: seq<string>, pairs: set<(string, string)>)
    requires forall n, x :: (n, x) in pairs <==> Offers(m, n, x)
    ensures forall n, x :: IfaceVar(n, x) in (set c | c in comps :: CompVar(c)) + VarsOf(pairs) <==>
              Resolved(m, IfaceVar(n, x))
  {
    forall n, x
      ensures IfaceVar(n, x) in (set c | c in comps :: CompVar(c)) + VarsOf(pairs) <==> Resolved(m, IfaceVar(n, x))
    {
      forall c | c in comps ensures CompVar(c) != IfaceVar(n, x) {
        VarsApart(c, n, x);
      }
      if Resolved(m, IfaceVar(n, x)) {
        var b, y :| Offers(m, b, y) && IfaceVar(n, x) == IfaceVar(b, y);
        assert (b, y) in pairs && IfaceVar((b, y).0, (b, y).1) in VarsOf(pairs);
      }
      if IfaceVar(n, x) in VarsOf(pairs) {
        var p :| p in pairs && IfaceVar(p.0, p.1) == IfaceVar(n, x);
        assert (p.0, p.1) in pairs;
      }
    }
  }

  /** The rest of the program defines nothing; it is in scope exactly if the manifest is. */
  lemma TailScoped(m: Manifest, order: seq<string>, d: set<string>)
    requires Accepted(m) && Generable(m) && Known(m, order) && Covers(m, d)
    ensures var tail := Connects(m, m.wiring) + Injects(m, order) + Hooks(m, Singles(m, m.initOrder))
                        + [MakeChannel, ReturnOf(m.exports)];
            ScopedAfter(d, tail) <==> ScopeOk(m)
  {
    ConnectsUse(m, d);
    InjectsUse(m, order, d);
    HooksUse(m, Singles(m, m.initOrder), d);
    EndUses(m, d);
    QuietParts(d, Connects(m, m.wiring), Injects(m, order), Hooks(m, Singles(m, m.initOrder)),
               [MakeChannel, ReturnOf(m.exports)]);
  }

  /** No statement defines anything. */
  ghost predicate Defless(code: seq<Stmt>) {
    forall i :: 0 <= i < |code| ==> DefOf(code[i]).None?
  }

  ghost predicate UsesIn(d: set<string>, code: seq<Stmt>) {
    forall i :: 0 <= i < |code| ==> UsesOf(code[i]) <= d
  }

  lemma QuietParts(d: set<string>, a: seq<Stmt>, b: seq<Stmt>, c: seq<Stmt>, e: seq<Stmt>)
    requires Defless(a) && Defless(b) && Defless(c) && Defless(e)
    ensures ScopedAfter(d, a + b + c + e) <==> UsesIn(d, a) && UsesIn(d, b) && UsesIn(d, c) && UsesIn(d, e)
  {
    QuietJoin(d, a, b);
    QuietJoin(d, a + b, c);
    QuietJoin(d, a + b + c, e);
    ScopedUses(d, a + b + c + e);
  }

  lemma QuietJoin(d: set<string>, a: seq<Stmt>, b: seq<Stmt>)
    requires Defless(a) && Defless(b)
    ensures Defless(a + b) && (UsesIn(d, a + b) <==> UsesIn(d, a) && UsesIn(d, b))
  {
    assert forall i :: 0 <= i < |a| ==> (a + b)[i] == a[i];
    assert forall i :: 0 <= i < |b| ==> (a + b)[|a| + i] == b[i];
  }

  lemma {:induction false} InjectsUse(m: Manifest, names: seq<string>, d: set<string>)
    requires Known(m, names) && Covers(m, d)
    ensures Defless(Injects(m, names)) && (Single(m, "dispatcher") ==> UsesIn(d, Injects(m, names)))
    decreases |names|
  {
    if names != [] {
      InjectsUse(m, names[..|names| - 1], d);
    }
  }

  lemma {:induction false} HooksUse(m: Manifest, names: seq<string>, d: set<string>)
    requires Hookable(m, names) && (forall n :: n in names ==> Single(m, n)) && Covers(m, d)
    ensures Defless(Hooks(m, names)) && UsesIn(d, Hooks(m, names))
    decreases |names|
  {
    if names != [] {
      var k := |names| - 1;
      HooksUse(m, names[..k], d);
      assert names == names[..k] + [names[k]];
      var decl := m.components[names[k]];
      if decl.hook.Some? {
        assert Offers(m, names[k], decl.ifaces[0]);
      }
    }
  }

  lemma EndUses(m: Manifest, d: set<string>)
    requires Covers(m, d)
    ensures Defless([MakeChannel, ReturnOf(m.exports)])
    ensures UsesIn(d, [MakeChannel, ReturnOf(m.exports)]) <==> Single(m, "dispatcher") && ExportsResolved(m)
  {
    var end := [MakeChannel, ReturnOf(m.exports)];
    var vs := ReturnOf(m.exports).ifaceVars;
    assert UsesIn(d, end) <==> UsesOf(end[0]) <= d && UsesOf(end[1]) <= d;
    forall i | 0 <= i < |m.exports|
      ensures vs[i] in UsesOf(end[1]) && vs[i] == IfaceVar(m.exports[i].component, m.exports[i].iface)
    {
      assert vs[i] in vs;
    }
  }

  lemma ConnectsUse(m: Manifest, d: set<string>)
    requires Accepted(m) && Generable(m) && Covers(m, d)
    ensures Defless(Connects(m, m.wiring)) && (UsesIn(d, Connects(m, m.wiring)) <==> WiringsResolved(m))
  {
    var code := Connects(m, m.wiring);
    forall i | 0 <= i < |m.wiring|
      ensures UsesOf(code[i]) ==
                {CompVar(Split(m.wiring[i].target, '.')[0]), IfaceVar(m.wiring[i].source, Chosen(m, m.wiring[i]))}
    {
    }
  }

  /** The generated program defines every variable before its use, for any iteration order, if
      and only if the manifest is in scope. */
  lemma ScopedExactly(m: Manifest, order: seq<string>)
    requires Accepted(m) && Generable(m) && OrderOf(m, order) && Known(m, order)
    ensures ScopedAfter({}, Program(m, order)) <==> ScopeOk(m)
  {
    var d := HeadScoped(m, order);
    TailScoped(m, order, d);
    var head := Instances(Singles(m, m.initOrder) + Others(m, order)) + Queries(m, Singles(m, order));
    HeadTail(head, d, Connects(m, m.wiring), Injects(m, order), Hooks(m, Singles(m, m.initOrder)),
             [MakeChannel, ReturnOf(m.exports)]);
  }

  lemma HeadTail(head: seq<Stmt>, d: set<string>, a: seq<Stmt>, b: seq<Stmt>, c: seq<Stmt>, e: seq<Stmt>)
    requires ScopedAfter({}, head) && Defs(head) == d
    ensures ScopedAfter({}, head + a + b + c + e) <==> ScopedAfter(d, a + b + c + e)
  {
    ScopedJoin({}, head, a + b + c + e);
    assert {} + d == d;
    assert head + a + b + c + e == head + (a + b + c + e);
  }

  // --- The generator ---

  lemma InstancesNext(names: seq<string>, n: string)
    ensures Instances(names + [n]) == Instances(names) + [Instantiate(n)]
  {
  }

  lemma SinglesNext(m: Manifest, names: seq<string>, i: nat)
    requires Known(m, names) && i < |names|
    ensures Known(m, names[..i]) && Known(m, names[..i + 1])
    ensures Singles(m, names[..i + 1]) ==
              Singles(m, names[..i]) + if m.components[names[i]].isFactory then [] else [names[i]]
    ensures Others(m, names[..i + 1]) == Others(m, names[..i]) +
            if m.components[names[i]].isFactory || names[i] in m.initOrder then [] else [names[i]]
  {
    assert names[..i + 1][..i] == names[..i];
  }

  lemma InstancesJoin(a: seq<string>, b: seq<string>)
    ensures Instances(a + b) == Instances(a) + Instances(b)
  {
  }

  /** The components of the init order. */
  method EmitOrdered(m: Manifest) returns (code: seq<Stmt>)
    requires Known(m, m.initOrder)
    ensures code == Instances(Singles(m, m.initOrder))
  {
    code := [];
    ghost var made: seq<string> := [];
    for i := 0 to |m.initOrder|
      invariant made == Singles(m, m.initOrder[..i]) && code == Instances(made)
    {
      SinglesNext(m, m.initOrder, i);
      if !m.components[m.initOrder[i]].isFactory {
        InstancesNext(made, m.initOrder[i]);
        made := made + [m.initOrder[i]];
        code := code + [Instantiate(m.initOrder[i])];
      }
    }
    assert m.initOrder[..|m.initOrder|] == m.initOrder;
  }

  /** The components not in the init order. */
  method EmitOthers(m: Manifest, order: seq<string>) returns (code: seq<Stmt>)
    requires Known(m, order)
    ensures code == Instances(Others(m, order))
  {
    code := [];
    ghost var made: seq<string> := [];
    for i := 0 to |order|
      invariant made == Others(m, order[..i]) && code == Instances(made)
    {
      SinglesNext(m, order, i);
      if order[i] !in m.initOrder && !m.components[order[i]].isFactory {
        InstancesNext(made, order[i]);
        made := made + [order[i]];
        code := code + [Instantiate(order[i])];
      }
    }
    assert order[..|order|] == order;
  }

  lemma QueriesNext(m: Manifest, names: seq<string>, n: string)
    requires Known(m, names) && n in m.components
    ensures Known(m, names + [n])
    ensures Queries(m, names + [n]) == Queries(m, names) + QueriesOf(n, m.components[n].ifaces)
  {
    assert (names + [n])[..|names|] == names;
  }

  method EmitQueriesOf(n: string, ifaces: seq<string>) returns (code: seq<Stmt>)
    ensures code == QueriesOf(n, ifaces)
  {
    code := [];
    for k := 0 to |ifaces|
      invariant code == QueriesOf(n, ifaces[..k])
    {
      assert QueriesOf(n, ifaces[..k + 1]) == QueriesOf(n, ifaces[..k]) + [Query(IfaceVar(n, ifaces[k]), n, ifaces[k])];
      code := code + [Query(IfaceVar(n, ifaces[k]), n, ifaces[k])];
    }
    assert ifaces[..|ifaces|] == ifaces;
  }

  method EmitQueries(m: Manifest, order: seq<string>) returns (code: seq<Stmt>)
    requires Known(m, order)
    ensures code == Queries(m, Singles(m, order))
  {
    code := [];
    ghost var done: seq<string> := [];
    for i := 0 to |order|
      invariant done == Singles(m, order[..i]) && Known(m, done) && code == Queries(m, done)
    {
      SinglesNext(m, order, i);
      if !m.components[order[i]].isFactory {
        QueriesNext(m, done, order[i]);
        done := done + [order[i]];
        var queries := EmitQueriesOf(order[i], m.components[order[i]].ifaces);
        code := code + queries;
      }
    }
    assert order[..|order|] == order;
  }

  method EmitConnects(m: Manifest) returns (o: Outcome, code: seq<Stmt>)
    requires forall i :: 0 <= i < |m.wiring| ==> WiringAccepted(m, m.wiring[i])
    ensures o.Ok? <==> forall i :: 0 <= i < |m.wiring| ==> Choosable(m, m.wiring[i])
    ensures o.Ok? ==> code == Connects(m, m.wiring)
  {
    code := [];
    for i := 0 to |m.wiring|
      invariant forall k :: 0 <= k < i ==> Choosable(m, m.wiring[k])
      invariant code == Connects(m, m.wiring[..i])
    {
      var w := m.wiring[i];
      if m.components[w.source].ifaces == [] {
        assert !Choosable(m, w);
        return Raised, code;
      }
      assert Connects(m, m.wiring[..i + 1]) == Connects(m, m.wiring[..i]) + [ConnectOf(m, w)];
      code := code + [ConnectOf(m, w)];
    }
    assert m.wiring[..|m.wiring|] == m.wiring;
    o := Ok;
  }

  ghost predicate DeviceOk(m: Manifest, n: string)
    requires n in m.components
  {
    n == "block_device" && m.components[n].isFactory ==>
      forall r :: r in m.components[n].receptacles ==> r == "spdk_env" || r == "logger"
  }

  method EmitInjects(m: Manifest, order: seq<string>) returns (o: Outcome, code: seq<Stmt>)
    requires Known(m, order)
    ensures o.Ok? <==> forall i :: 0 <= i < |order| ==> DeviceOk(m, order[i])
    ensures o.Ok? ==> code == Injects(m, order)
  {
    code := [];
    for i := 0 to |order|
      invariant forall k :: 0 <= k < i ==> DeviceOk(m, order[k])
      invariant code == Injects(m, order[..i])
    {
      assert order[..i + 1][..i] == order[..i];
      var n := order[i];
      if m.components[n].isFactory && n == "block_device" {
        var rs := m.components[n].receptacles;
        for k := 0 to |rs|
          invariant forall j :: 0 <= j < k ==> rs[j] == "spdk_env" || rs[j] == "logger"
        {
          if rs[k] != "spdk_env" && rs[k] != "logger" {
            assert rs[k] in rs && !DeviceOk(m, n);
            return Raised, code;
          }
        }
      }
      if m.components[n].isFactory && Injectable(n) {
        code := code + [Inject(n)];
      }
    }
    assert order[..|order|] == order;
    o := Ok;
  }

  method EmitHooks(m: Manifest, names: seq<string>) returns (o: Outcome, code: seq<Stmt>)
    requires Known(m, names)
    ensures o.Ok? <==> Hookable(m, names)
    ensures o.Ok? ==> code == Hooks(m, names)
  {
    code := [];
    for i := 0 to |names|
      invariant Hookable(m, names[..i]) && code == Hooks(m, names[..i])
    {
      var d := m.components[names[i]];
      if d.hook.Some? && d.ifaces == [] {
        return Raised, code;
      }
      assert names[..i + 1][..i] == names[..i];
      if d.hook.Some? {
        code := code + [CallHook(d.hook.value, IfaceVar(names[i], d.ifaces[0]))];
      }
    }
    assert names[..|names|] == names;
    o := Ok;
  }

  /** Emits the whole program; panics exactly when the manifest is not generable. */
  method GenerateComposition(m: Manifest, order: seq<string>) returns (o: Outcome, code: seq<Stmt>)
    requires Accepted(m) && OrderOf(m, order) && Known(m, order)
    ensures o.Ok? <==> Generable(m)
    ensures o.Ok? ==> code == Program(m, order)
  {
    code := [];
    GenerableIs(m, order);
    if "dispatcher" !in m.components {
      return Raised, code;
    }
    var made := EmitOrdered(m);
    var others := EmitOthers(m, order);
    var queries := EmitQueries(m, order);
    var wires, injects, hooks;
    o, wires := EmitConnects(m);
    if o.Raised? {
      return;
    }
    o, injects := EmitInjects(m, order);
    if o.Raised? {
      return;
    }
    o, hooks := EmitHooks(m, Singles(m, m.initOrder));
    if o.Raised? {
      return;
    }
    InstancesJoin(Singles(m, m.initOrder), Others(m, order));
    code := made + others + queries + wires + injects + hooks + [MakeChannel, ReturnOf(m.exports)];
  }

  /** A manifest is generable exactly when none of the emitting steps panics. */
  lemma GenerableIs(m: Manifest, order: seq<string>)
    requires Accepted(m) && OrderOf(m, order) && Known(m, order)
    ensures Generable(m) <==>
            && "dispatcher" in m.components
            && (forall i :: 0 <= i < |m.wiring| ==> Choosable(m, m.wiring[i]))
            && (forall i :: 0 <= i < |order| ==> DeviceOk(m, order[i]))
            && Hookable(m, Singles(m, m.initOrder))
  {
    assert "block_device" in m.components <==> "block_device" in order;
    assert "block_device" in m.components ==>
             (DeviceOk(m, "block_device") <==> forall i :: 0 <= i < |order| ==> DeviceOk(m, order[i]));
  }
}
