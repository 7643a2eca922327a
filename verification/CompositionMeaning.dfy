/** When the composer's program does what the manifest means: exactly when every interface it uses
    is the last one queried into its variable, whatever the order of the component map. */
module CompositionMeanings {
  import opened Common
  import opened Compositions

  // --- What a variable holds after the queries ---

  ghost function Seen(vars: map<string, Value>, v: string): Option<Value> {
    if v in vars then Some(vars[v]) else None
  }

  /** The last of a component's interfaces with this variable. */
  ghost function HeldOf(n: string, xs: seq<string>, v: string): Option<string> {
    if xs == [] then None else
      var k := |xs| - 1;
      if IfaceVar(n, xs[k]) == v then Some(xs[k]) else HeldOf(n, xs[..k], v)
  }

  /** The last interface with this variable, of the components in order. */
  ghost function Held(m: Manifest, names: seq<string>, v: string): Option<Value>
    requires Known(m, names)
  {
    if names == [] then None else
      var k := |names| - 1;
      match HeldOf(names[k], m.components[names[k]].ifaces, v)
      case Some(x) => Some(Iface(names[k], x))
      case None => Held(m, names[..k], v)
  }

  lemma {:induction false} HeldOfIs(n: string, xs: seq<string>, v: string)
    ensures HeldOf(n, xs, v).Some? <==> exists x :: x in xs && IfaceVar(n, x) == v
    ensures HeldOf(n, xs, v).Some? ==> HeldOf(n, xs, v).value in xs && IfaceVar(n, HeldOf(n, xs, v).value) == v
  {
    if xs != [] {
      var k := |xs| - 1;
      HeldOfIs(n, xs[..k], v);
      assert xs == xs[..k] + [xs[k]];
    }
  }

  lemma {:induction false} HeldIs(m: Manifest, names: seq<string>, v: string)
    requires Known(m, names)
    ensures Held(m, names, v).Some? <==> exists n, x :: n in names && x in m.components[n].ifaces && IfaceVar(n, x) == v
    ensures Held(m, names, v).Some? ==>
              var y := Held(m, names, v).value;
              y.Iface? && y.name in names && y.iface in m.components[y.name].ifaces && IfaceVar(y.name, y.iface) == v
    decreases |names|
  {
    if names != [] {
      var k := |names| - 1;
      var n := names[k];
      HeldIs(m, names[..k], v);
      HeldOfIs(n, m.components[n].ifaces, v);
      assert names == names[..k] + [n];
    }
  }

  lemma HeldNoComp(m: Manifest, names: seq<string>, c: string)
    requires Known(m, names)
    ensures Held(m, names, CompVar(c)) == None
  {
    HeldIs(m, names, CompVar(c));
    forall n, x ensures IfaceVar(n, x) != CompVar(c) {
      VarsApart(c, n, x);
    }
  }

  /** After the queries of one component. */
  lemma {:induction false} QueriesOfRun(m: Manifest, r: Run, n: string, xs: seq<string>)
    requires n in m.components && Seen(r.vars, CompVar(n)) == Some(Comp(n))
    requires forall x :: x in xs ==> x in m.components[n].ifaces
    ensures var r' := Exec(m, r, QueriesOf(n, xs));
            && r'.Some? && r'.value.log == r.log
            && forall v :: Seen(r'.value.vars, v) ==
                           match HeldOf(n, xs, v) case Some(x) => Some(Iface(n, x)) case None => Seen(r.vars, v)
    decreases |xs|
  {
    if xs != [] {
      var k := |xs| - 1;
      var code := QueriesOf(n, xs[..k]);
      assert xs == xs[..k] + [xs[k]];
      QueriesOfRun(m, r, n, xs[..k]);
      assert QueriesOf(n, xs) == code + [Query(IfaceVar(n, xs[k]), n, xs[k])];
      ExecNext(m, r, code, Query(IfaceVar(n, xs[k]), n, xs[k]));
      OneHeldNot(n, xs[..k], n);
      var r1 := Exec(m, r, code).value;
      assert Seen(r1.vars, CompVar(n)) == Some(Comp(n));
    }
  }

  lemma OneHeldNot(n: string, xs: seq<string>, c: string)
    ensures HeldOf(n, xs, CompVar(c)) == None
  {
    HeldOfIs(n, xs, CompVar(c));
    forall x ensures IfaceVar(n, x) != CompVar(c) {
      VarsApart(c, n, x);
    }
  }

  lemma {:induction false} QueriesRun(m: Manifest, r: Run, names: seq<string>)
    requires Known(m, names) && forall n :: n in names ==> Seen(r.vars, CompVar(n)) == Some(Comp(n))
    ensures var r' := Exec(m, r, Queries(m, names));
            && r'.Some? && r'.value.log == r.log
            && forall v :: Seen(r'.value.vars, v) ==
                           match Held(m, names, v) case Some(y) => Some(y) case None => Seen(r.vars, v)
    decreases |names|
  {
    if names != [] {
      var k := |names| - 1;
      var n, xs := names[k], m.components[names[k]].ifaces;
      assert names == names[..k] + [n];
      QueriesRun(m, r, names[..k]);
      var r1 := Exec(m, r, Queries(m, names[..k])).value;
      HeldNoComp(m, names[..k], n);
      assert Seen(r1.vars, CompVar(n)) == Some(Comp(n));
      QueriesOfRun(m, r1, n, xs);
      ExecJoin(m, r, Queries(m, names[..k]), QueriesOf(n, xs));
    }
  }

  /** What is in scope after instantiation and queries: the components made, and for every
      interface variable the interface queried last. */
  ghost predicate Headed(m: Manifest, order: seq<string>, vars: map<string, Value>)
    requires Known(m, order)
  {
    && (forall n :: Single(m, n) ==> Seen(vars, CompVar(n)) == Some(Comp(n)))
    && (forall n, x :: Seen(vars, IfaceVar(n, x)) == Held(m, Singles(m, order), IfaceVar(n, x)))
  }

  lemma HeadRun(m: Manifest, order: seq<string>) returns (r: Run)
    requires Known(m, m.initOrder) && OrderOf(m, order) && Known(m, order)
    ensures Exec(m, BLANK, Instances(Singles(m, m.initOrder) + Others(m, order)) + Queries(m, Singles(m, order))) ==
              Some(r)
    ensures Headed(m, order, r.vars) && r.log == Mades(Singles(m, m.initOrder) + Others(m, order))
  {
    var comps, singles := Singles(m, m.initOrder) + Others(m, order), Singles(m, order);
    CompsAre(m, order);
    InstancesRun(m, comps);
    var r1 := Exec(m, BLANK, Instances(comps)).value;
    QueriesRun(m, r1, singles);
    ExecJoin(m, BLANK, Instances(comps), Queries(m, singles));
    r := Exec(m, r1, Queries(m, singles)).value;
    forall n | Single(m, n) ensures Seen(r.vars, CompVar(n)) == Some(Comp(n)) {
      HeldNoComp(m, singles, n);
    }
  }

  // --- What the rest of the program does with these variables ---

  ghost function Val(vars: map<string, Value>, v: string): Value {
    if v in vars then vars[v] else Comp("")
  }

  ghost predicate HasIface(vars: map<string, Value>, n: string, x: string) {
    IfaceVar(n, x) in vars && vars[IfaceVar(n, x)].Iface?
  }

  ghost predicate HasComp(vars: map<string, Value>, n: string) {
    CompVar(n) in vars && vars[CompVar(n)] == Comp(n)
  }

  ghost predicate WireReady(m: Manifest, vars: map<string, Value>, w: Wiring) {
    Choosable(m, w) && HasComp(vars, Split(w.target, '.')[0]) && HasIface(vars, w.source, Chosen(m, w))
  }

  ghost function WiredOneBy(m: Manifest, w: Wiring, vars: map<string, Value>): Event
    requires Choosable(m, w)
  {
    var parts := Split(w.target, '.');
    Connected(parts[0], parts[1], Val(vars, IfaceVar(w.source, Chosen(m, w))))
  }

  ghost function WiredBy(m: Manifest, wiring: seq<Wiring>, vars: map<string, Value>): seq<Event>
    requires forall i :: 0 <= i < |wiring| ==> Choosable(m, wiring[i])
  {
    seq(|wiring|, i requires 0 <= i < |wiring| => WiredOneBy(m, wiring[i], vars))
  }

  ghost function HookedBy(m: Manifest, names: seq<string>, vars: map<string, Value>): seq<Event>
    requires Hookable(m, names)
  {
    if names == [] then [] else
      var n := names[|names| - 1];
      var d := m.components[n];
      HookedBy(m, names[..|names| - 1], vars) +
      if d.hook.Some? then [Hooked(d.hook.value, Val(vars, IfaceVar(n, d.ifaces[0])))] else []
  }

  ghost function ReturnedBy(exports: seq<Export>, vars: map<string, Value>): Event {
    Returned(exports, seq(|exports|, i requires 0 <= i < |exports| =>
                        Val(vars, IfaceVar(exports[i].component, exports[i].iface))))
  }

  lemma {:induction false} ConnectsRun(m: Manifest, r: Run, wiring: seq<Wiring>)
    requires forall i :: 0 <= i < |wiring| ==> Choosable(m, wiring[i]) && WireReady(m, r.vars, wiring[i])
    ensures Exec(m, r, Connects(m, wiring)) == Some(r.(log := r.log + WiredBy(m, wiring, r.vars)))
    decreases |wiring|
  {
    if wiring == [] {
      assert r.log + [] == r.log;
    } else {
      var k := |wiring| - 1;
      var w := wiring[k];
      ConnectsRun(m, r, wiring[..k]);
      WiringLast(m, r.log, wiring, r.vars);
      ExecNext(m, r, Connects(m, wiring[..k]), ConnectOf(m, w));
      ConnectStep(m, r.(log := r.log + WiredBy(m, wiring[..k], r.vars)), w);
    }
  }

  lemma ConnectStep(m: Manifest, r: Run, w: Wiring)
    requires WireReady(m, r.vars, w)
    ensures Step(m, r, ConnectOf(m, w)) == Some(r.(log := r.log + [WiredOneBy(m, w, r.vars)]))
  {
  }

  lemma WiringLast(m: Manifest, log: seq<Event>, wiring: seq<Wiring>, vars: map<string, Value>)
    requires wiring != [] && forall i :: 0 <= i < |wiring| ==> Choosable(m, wiring[i])
    ensures var k := |wiring| - 1;
            && Connects(m, wiring) == Connects(m, wiring[..k]) + [ConnectOf(m, wiring[k])]
            && log + WiredBy(m, wiring, vars) == log + WiredBy(m, wiring[..k], vars) + [WiredOneBy(m, wiring[k], vars)]
  {
  }

  lemma {:induction false} InjectsRun(m: Manifest, r: Run, names: seq<string>)
    requires HasComp(r.vars, "dispatcher") && Known(m, names)
    ensures Exec(m, r, Injects(m, names)) == Some(r.(log := r.log + InjectedAll(m, names)))
    decreases |names|
  {
    if names == [] {
      assert r.log + [] == r.log;
    } else {
      var k := |names| - 1;
      var n := names[k];
      InjectsRun(m, r, names[..k]);
      if m.components[n].isFactory && Injectable(n) {
        assert Injects(m, names) == Injects(m, names[..k]) + [Inject(n)];
        ExecNext(m, r, Injects(m, names[..k]), Inject(n));
        InjectStep(m, r.(log := r.log + InjectedAll(m, names[..k])), n);
        assert r.log + InjectedAll(m, names) == r.log + InjectedAll(m, names[..k]) + [Injected(n)];
      } else {
        assert Injects(m, names) == Injects(m, names[..k]) && InjectedAll(m, names) == InjectedAll(m, names[..k]);
      }
    }
  }

  lemma InjectStep(m: Manifest, r: Run, n: string)
    requires HasComp(r.vars, "dispatcher")
    ensures Step(m, r, Inject(n)) == Some(r.(log := r.log + [Injected(n)]))
  {
  }

  lemma {:induction false} HooksRun(m: Manifest, r: Run, names: seq<string>)
    requires Hookable(m, names)
    requires forall n :: n in names && m.components[n].hook.Some? ==> HasIface(r.vars, n, m.components[n].ifaces[0])
    ensures Exec(m, r, Hooks(m, names)) == Some(r.(log := r.log + HookedBy(m, names, r.vars)))
    decreases |names|
  {
    if names == [] {
      assert r.log + [] == r.log;
    } else {
      var k := |names| - 1;
      var n, d := names[k], m.components[names[k]];
      assert names == names[..k] + [n];
      HooksRun(m, r, names[..k]);
      HooksLast(m, r.log, names, r.vars);
      if d.hook.Some? {
        ExecNext(m, r, Hooks(m, names[..k]), CallHook(d.hook.value, IfaceVar(n, d.ifaces[0])));
        HookStep(m, r.(log := r.log + HookedBy(m, names[..k], r.vars)), d.hook.value, n, d.ifaces[0]);
      }
    }
  }

  lemma HookStep(m: Manifest, r: Run, hook: string, n: string, x: string)
    requires HasIface(r.vars, n, x)
    ensures Step(m, r, CallHook(hook, IfaceVar(n, x))) ==
            Some(r.(log := r.log + [Hooked(hook, Val(r.vars, IfaceVar(n, x)))]))
  {
  }

  lemma HooksLast(m: Manifest, log: seq<Event>, names: seq<string>, vars: map<string, Value>)
    requires names != [] && Hookable(m, names)
    ensures var k := |names| - 1;
            var d := m.components[names[k]];
            if d.hook.Some? then
              var v := IfaceVar(names[k], d.ifaces[0]);
              && Hooks(m, names) == Hooks(m, names[..k]) + [CallHook(d.hook.value, v)]
              && log + HookedBy(m, names, vars) ==
                 log + HookedBy(m, names[..k], vars) + [Hooked(d.hook.value, Val(vars, v))]
            else
              Hooks(m, names) == Hooks(m, names[..k]) && HookedBy(m, names, vars) == HookedBy(m, names[..k], vars)
  {
  }

  lemma EndRun(m: Manifest, r: Run)
    requires HasComp(r.vars, "dispatcher")
    requires forall i :: 0 <= i < |m.exports| ==> HasIface(r.vars, m.exports[i].component, m.exports[i].iface)
    ensures Exec(m, r, [MakeChannel, ReturnOf(m.exports)]) == Some(r.(log := r.log + [ReturnedBy(m.exports, r.vars)]))
  {
    var code := [MakeChannel, ReturnOf(m.exports)];
    assert code[..1] == [MakeChannel] && [MakeChannel][..0] == [];
    assert Exec(m, r, []) == Some(r);
    assert Exec(m, r, [MakeChannel]) == Some(r);
    var vs := ReturnOf(m.exports).ifaceVars;
    forall i | 0 <= i < |vs| ensures vs[i] in r.vars && r.vars[vs[i]].Iface? {
      assert HasIface(r.vars, m.exports[i].component, m.exports[i].iface);
    }
    assert seq(|vs|, i requires 0 <= i < |vs| && vs[i] in r.vars => r.vars[vs[i]]) ==
             ReturnedBy(m.exports, r.vars).values;
  }

  // --- The interfaces a program uses ---

  ghost function WireUses(m: Manifest): set<(string, string)>
    requires Generable(m)
  {
    set i | 0 <= i < |m.wiring| :: (m.wiring[i].source, Chosen(m, m.wiring[i]))
  }

  ghost function HookUses(m: Manifest): set<(string, string)>
    requires Generable(m)
  {
    set n | n in Singles(m, m.initOrder) && m.components[n].hook.Some? :: (n, FirstIface(m, n))
  }

  ghost function FirstIface(m: Manifest, n: string): string
    requires n in m.components
  {
    if m.components[n].ifaces == [] then "" else m.components[n].ifaces[0]
  }

  ghost function ExportUses(m: Manifest): set<(string, string)> {
    set i | 0 <= i < |m.exports| :: (m.exports[i].component, m.exports[i].iface)
  }

  /** The interfaces wired, hooked and exported. */
  ghost function Uses(m: Manifest): set<(string, string)>
    requires Generable(m)
  {
    WireUses(m) + HookUses(m) + ExportUses(m)
  }

  /** The manifest's targets and the dispatcher are made by the program. */
  ghost predicate TargetsMade(m: Manifest)
    requires Generable(m)
  {
    Single(m, "dispatcher") && forall i :: 0 <= i < |m.wiring| ==> Single(m, Split(m.wiring[i].target, '.')[0])
  }

  /** Every interface used has a variable. */
  ghost predicate UsesSeen(m: Manifest, vars: map<string, Value>)
    requires Generable(m)
  {
    forall p :: p in Uses(m) ==> HasIface(vars, p.0, p.1)
  }

  /** Every interface used is the one its variable holds. */
  ghost predicate UsesMeant(m: Manifest, vars: map<string, Value>)
    requires Generable(m)
  {
    forall p :: p in Uses(m) ==> Val(vars, IfaceVar(p.0, p.1)) == Iface(p.0, p.1)
  }

  ghost function TailLog(m: Manifest, order: seq<string>, vars: map<string, Value>): seq<Event>
    requires Generable(m) && Known(m, order)
  {
    WiredBy(m, m.wiring, vars) + InjectedAll(m, order) + HookedBy(m, Singles(m, m.initOrder), vars)
    + [ReturnedBy(m.exports, vars)]
  }

  ghost function Tail(m: Manifest, order: seq<string>): seq<Stmt>
    requires Generable(m) && Known(m, order)
  {
    Connects(m, m.wiring) + Injects(m, order) + Hooks(m, Singles(m, m.initOrder)) + [MakeChannel, ReturnOf(m.exports)]
  }

  lemma WiresReady(m: Manifest, vars: map<string, Value>)
    requires Generable(m) && TargetsMade(m) && UsesSeen(m, vars)
    requires forall n :: Single(m, n) ==> Seen(vars, CompVar(n)) == Some(Comp(n))
    ensures forall i :: 0 <= i < |m.wiring| ==> WireReady(m, vars, m.wiring[i])
  {
    forall i | 0 <= i < |m.wiring| ensures WireReady(m, vars, m.wiring[i]) {
      assert (m.wiring[i].source, Chosen(m, m.wiring[i])) in WireUses(m);
    }
  }

  lemma HooksReady(m: Manifest, vars: map<string, Value>)
    requires Generable(m) && UsesSeen(m, vars)
    ensures forall n :: n in Singles(m, m.initOrder) && m.components[n].hook.Some? ==>
              m.components[n].ifaces != [] && HasIface(vars, n, m.components[n].ifaces[0])
  {
    forall n | n in Singles(m, m.initOrder) && m.components[n].hook.Some?
      ensures m.components[n].ifaces != [] && HasIface(vars, n, m.components[n].ifaces[0])
    {
      assert m.components[n].ifaces != [];
      assert (n, FirstIface(m, n)) in HookUses(m);
    }
  }

  lemma TailRun(m: Manifest, order: seq<string>, r: Run)
    requires Generable(m) && Known(m, order) && TargetsMade(m) && UsesSeen(m, r.vars)
    requires forall n :: Single(m, n) ==> Seen(r.vars, CompVar(n)) == Some(Comp(n))
    ensures Exec(m, r, Tail(m, order)) == Some(r.(log := r.log + TailLog(m, order, r.vars)))
  {
    var singles := Singles(m, m.initOrder);
    WiresReady(m, r.vars);
    ConnectsRun(m, r, m.wiring);
    var r2 := r.(log := r.log + WiredBy(m, m.wiring, r.vars));
    InjectsRun(m, r2, order);
    var r3 := r2.(log := r2.log + InjectedAll(m, order));
    HooksReady(m, r.vars);
    HooksRun(m, r3, singles);
    var r4 := r3.(log := r3.log + HookedBy(m, singles, r.vars));
    ExportsReady(m, r.vars);
    EndRun(m, r4);
    ExecFour(m, r, r2, r3, r4, r4.(log := r4.log + [ReturnedBy(m.exports, r.vars)]), Connects(m, m.wiring),
             Injects(m, order), Hooks(m, singles), [MakeChannel, ReturnOf(m.exports)]);
    Together(r.log, WiredBy(m, m.wiring, r.vars), InjectedAll(m, order), HookedBy(m, singles, r.vars),
             [ReturnedBy(m.exports, r.vars)]);
  }

  lemma ExecFour(m: Manifest, r: Run, r2: Run, r3: Run, r4: Run, r5: Run, a: seq<Stmt>, b: seq<Stmt>, c: seq<Stmt>,
                 e: seq<Stmt>)
    requires Exec(m, r, a) == Some(r2) && Exec(m, r2, b) == Some(r3) && Exec(m, r3, c) == Some(r4)
    requires Exec(m, r4, e) == Some(r5)
    ensures Exec(m, r, a + b + c + e) == Some(r5)
  {
    ExecJoin(m, r, a, b);
    ExecJoin(m, r, a + b, c);
    ExecJoin(m, r, a + b + c, e);
  }

  lemma Together(log: seq<Event>, a: seq<Event>, b: seq<Event>, c: seq<Event>, e: seq<Event>)
    ensures log + a + b + c + e == log + (a + b + c + e)
  {
  }

  lemma ExportsReady(m: Manifest, vars: map<string, Value>)
    requires Generable(m) && UsesSeen(m, vars)
    ensures forall i :: 0 <= i < |m.exports| ==> HasIface(vars, m.exports[i].component, m.exports[i].iface)
  {
    forall i | 0 <= i < |m.exports| ensures HasIface(vars, m.exports[i].component, m.exports[i].iface) {
      assert (m.exports[i].component, m.exports[i].iface) in ExportUses(m);
    }
  }

  // --- The log is what the manifest means exactly if the variables are ---

  lemma {:induction false} HookedSame(m: Manifest, names: seq<string>, vars: map<string, Value>)
    requires Hookable(m, names)
    ensures |HookedBy(m, names, vars)| == |HookedAll(m, names)|
    ensures HookedBy(m, names, vars) == HookedAll(m, names) <==>
            forall n :: n in names && m.components[n].hook.Some? ==>
              Val(vars, IfaceVar(n, FirstIface(m, n))) == Iface(n, FirstIface(m, n))
    decreases |names|
  {
    if names != [] {
      var k := |names| - 1;
      var n := names[k];
      HookedSame(m, names[..k], vars);
      assert names == names[..k] + [n];
      var a, b := HookedBy(m, names[..k], vars), HookedAll(m, names[..k]);
      if m.components[n].hook.Some? {
        LastApart(a, Hooked(m.components[n].hook.value, Val(vars, IfaceVar(n, FirstIface(m, n)))),
                  b, Hooked(m.components[n].hook.value, Iface(n, FirstIface(m, n))));
      } else {
        assert HookedBy(m, names, vars) == a && HookedAll(m, names) == b;
      }
    }
  }

  lemma LastApart(a: seq<Event>, x: Event, b: seq<Event>, y: Event)
    requires |a| == |b|
    ensures a + [x] == b + [y] <==> a == b && x == y
  {
    if a + [x] == b + [y] {
      assert a == (a + [x])[..|a|] && b == (b + [y])[..|a|];
      assert x == (a + [x])[|a|] && y == (b + [y])[|a|];
    }
  }

  lemma WiredSame(m: Manifest, vars: map<string, Value>)
    requires Generable(m)
    ensures |WiredBy(m, m.wiring, vars)| == |Wired(m, m.wiring)|
    ensures WiredBy(m, m.wiring, vars) == Wired(m, m.wiring) <==>
            forall p :: p in WireUses(m) ==> Val(vars, IfaceVar(p.0, p.1)) == Iface(p.0, p.1)
  {
    var a, b := WiredBy(m, m.wiring, vars), Wired(m, m.wiring);
    forall i | 0 <= i < |m.wiring|
      ensures a[i] == b[i] <==> Val(vars, IfaceVar(m.wiring[i].source, Chosen(m, m.wiring[i]))) ==
                                Iface(m.wiring[i].source, Chosen(m, m.wiring[i]))
      ensures (m.wiring[i].source, Chosen(m, m.wiring[i])) in WireUses(m)
    {
    }
  }

  lemma ReturnedSame(exports: seq<Export>, vars: map<string, Value>)
    ensures ReturnedBy(exports, vars) == Exported(exports) <==>
            forall i :: 0 <= i < |exports| ==>
              Val(vars, IfaceVar(exports[i].component, exports[i].iface)) ==
                Iface(exports[i].component, exports[i].iface)
  {
    var a, b := ReturnedBy(exports, vars).values, Exported(exports).values;
    forall i | 0 <= i < |exports|
      ensures a[i] == Val(vars, IfaceVar(exports[i].component, exports[i].iface))
      ensures b[i] == Iface(exports[i].component, exports[i].iface)
    {
    }
    assert a == b <==> forall i :: 0 <= i < |exports| ==> a[i] == b[i];
  }

  lemma PartsApart(l: seq<Event>, a: seq<Event>, b: seq<Event>, c: seq<Event>, x: Event,
                   a': seq<Event>, c': seq<Event>, x': Event)
    requires |a| == |a'| && |c| == |c'|
    ensures l + (a + b + c + [x]) == l + a' + b + c' + [x'] <==> a == a' && c == c' && x == x'
  {
    var s, s' := l + (a + b + c + [x]), l + a' + b + c' + [x'];
    if s == s' {
      assert a == s[|l|..|l| + |a|] && a' == s'[|l|..|l| + |a|];
      var k := |l| + |a| + |b|;
      assert c == s[k..k + |c|] && c' == s'[k..k + |c|];
      assert x == s[k + |c|] && x' == s'[k + |c|];
    }
  }

  lemma SameLog(m: Manifest, order: seq<string>, vars: map<string, Value>)
    requires Generable(m) && Known(m, order)
    ensures Mades(Singles(m, m.initOrder) + Others(m, order)) + TailLog(m, order, vars) == Meaning(m, order) <==>
            UsesMeant(m, vars)
  {
    var singles := Singles(m, m.initOrder);
    WiredSame(m, vars);
    HookedSame(m, singles, vars);
    ReturnedSame(m.exports, vars);
    PartsApart(Mades(singles + Others(m, order)), WiredBy(m, m.wiring, vars), InjectedAll(m, order),
               HookedBy(m, singles, vars), ReturnedBy(m.exports, vars), Wired(m, m.wiring), HookedAll(m, singles),
               Exported(m.exports));
    UsesSplit(m, vars);
  }

  lemma UsesSplit(m: Manifest, vars: map<string, Value>)
    requires Generable(m)
    ensures UsesMeant(m, vars) <==>
            && (forall p :: p in WireUses(m) ==> Val(vars, IfaceVar(p.0, p.1)) == Iface(p.0, p.1))
            && (forall n :: n in Singles(m, m.initOrder) && m.components[n].hook.Some? ==>
                  Val(vars, IfaceVar(n, FirstIface(m, n))) == Iface(n, FirstIface(m, n)))
            && (forall i :: 0 <= i < |m.exports| ==>
                  Val(vars, IfaceVar(m.exports[i].component, m.exports[i].iface)) ==
                  Iface(m.exports[i].component, m.exports[i].iface))
  {
    forall n | n in Singles(m, m.initOrder) && m.components[n].hook.Some?
      ensures (n, FirstIface(m, n)) in HookUses(m)
    {
    }
    forall i | 0 <= i < |m.exports| ensures (m.exports[i].component, m.exports[i].iface) in ExportUses(m) {
    }
  }

  // --- Exactly when the program means what the manifest does ---

  /** The program, for this iteration order, runs and does what the manifest means. */
  ghost predicate RunsRight(m: Manifest, order: seq<string>)
    requires Generable(m) && Known(m, order)
  {
    Exec(m, BLANK, Program(m, order)).Some? && Exec(m, BLANK, Program(m, order)).value.log == Meaning(m, order)
  }

  /** For this order, every interface used is the last one queried into its variable. */
  ghost predicate LastQueried(m: Manifest, order: seq<string>)
    requires Generable(m) && Known(m, order)
  {
    forall p :: p in Uses(m) ==> Held(m, Singles(m, order), IfaceVar(p.0, p.1)) == Some(Iface(p.0, p.1))
  }

  lemma {:induction false} ExecScoped(m: Manifest, r: Run, code: seq<Stmt>)
    requires Exec(m, r, code).Some?
    ensures ScopedAfter(r.vars.Keys, code) && Exec(m, r, code).value.vars.Keys == r.vars.Keys + Defs(code)
    decreases |code|
  {
    if code != [] {
      var k := |code| - 1;
      ExecScoped(m, r, code[..k]);
      StepScoped(m, Exec(m, r, code[..k]).value, code[k]);
    }
  }

  lemma StepScoped(m: Manifest, r: Run, s: Stmt)
    requires Step(m, r, s).Some?
    ensures UsesOf(s) <= r.vars.Keys
    ensures Step(m, r, s).value.vars.Keys == r.vars.Keys + match DefOf(s) case Some(v) => {v} case None => {}
  {
  }

  lemma UsesResolved(m: Manifest, order: seq<string>, vars: map<string, Value>)
    requires Accepted(m) && Generable(m) && OrderOf(m, order) && Known(m, order) && ScopeOk(m)
    requires Headed(m, order, vars)
    ensures UsesSeen(m, vars)
  {
    CompsAre(m, order);
    forall p | p in Uses(m) ensures HasIface(vars, p.0, p.1) {
      UseResolved(m, p);
      var n, x :| Offers(m, n, x) && IfaceVar(p.0, p.1) == IfaceVar(n, x);
      HeldIs(m, Singles(m, order), IfaceVar(p.0, p.1));
      assert n in Singles(m, order);
    }
  }

  lemma UseResolved(m: Manifest, p: (string, string))
    requires Accepted(m) && Generable(m) && ScopeOk(m) && p in Uses(m)
    ensures Resolved(m, IfaceVar(p.0, p.1))
  {
    if p in HookUses(m) {
      var n :| n in Singles(m, m.initOrder) && m.components[n].hook.Some? && p == (n, FirstIface(m, n));
      assert Offers(m, n, FirstIface(m, n));
    }
  }

  /** One iteration order: the program runs and does what the manifest means exactly if the manifest
      is in scope and every interface used is the last one queried into its variable. */
  lemma RunsExactly(m: Manifest, order: seq<string>)
    requires Accepted(m) && Generable(m) && OrderOf(m, order) && Known(m, order)
    ensures RunsRight(m, order) <==> ScopeOk(m) && LastQueried(m, order)
  {
    RunScoped(m, order);
    if ScopeOk(m) {
      var vars := ScopedRun(m, order);
      SameLog(m, order, vars);
      MeantHeld(m, order, vars);
    }
  }

  lemma RunScoped(m: Manifest, order: seq<string>)
    requires Accepted(m) && Generable(m) && OrderOf(m, order) && Known(m, order)
    ensures Exec(m, BLANK, Program(m, order)).Some? ==> ScopeOk(m)
  {
    ScopedExactly(m, order);
    BlankScoped(m, Program(m, order));
  }

  lemma BlankScoped(m: Manifest, code: seq<Stmt>)
    ensures Exec(m, BLANK, code).Some? ==> ScopedAfter({}, code)
  {
    assert BLANK.vars.Keys == {};
    if Exec(m, BLANK, code).Some? {
      ExecScoped(m, BLANK, code);
    }
  }

  /** In scope, the program runs, and this is what it does. */
  lemma ScopedRun(m: Manifest, order: seq<string>) returns (vars: map<string, Value>)
    requires Accepted(m) && Generable(m) && OrderOf(m, order) && Known(m, order) && ScopeOk(m)
    ensures Headed(m, order, vars)
    ensures Exec(m, BLANK, Program(m, order)) ==
            Some(Run(vars, Mades(Singles(m, m.initOrder) + Others(m, order)) + TailLog(m, order, vars)))
  {
    var r := HeadRun(m, order);
    vars := r.vars;
    UsesResolved(m, order, vars);
    TailRun(m, order, r);
    HeadAndTail(m, order, r);
  }

  lemma HeadAndTail(m: Manifest, order: seq<string>, r: Run)
    requires Generable(m) && Known(m, order)
    requires Exec(m, BLANK, Instances(Singles(m, m.initOrder) + Others(m, order)) + Queries(m, Singles(m, order))) ==
               Some(r)
    ensures Exec(m, BLANK, Program(m, order)) == Exec(m, r, Tail(m, order))
  {
    var head := Instances(Singles(m, m.initOrder) + Others(m, order)) + Queries(m, Singles(m, order));
    ExecJoin(m, BLANK, head, Tail(m, order));
    Reassociate(head, Connects(m, m.wiring), Injects(m, order), Hooks(m, Singles(m, m.initOrder)),
                [MakeChannel, ReturnOf(m.exports)]);
  }

  lemma Reassociate(head: seq<Stmt>, a: seq<Stmt>, b: seq<Stmt>, c: seq<Stmt>, e: seq<Stmt>)
    ensures head + a + b + c + e == head + (a + b + c + e)
  {
  }

  lemma MeantHeld(m: Manifest, order: seq<string>, vars: map<string, Value>)
    requires Generable(m) && Known(m, order) && Headed(m, order, vars)
    ensures UsesMeant(m, vars) <==> LastQueried(m, order)
  {
    forall p | p in Uses(m)
      ensures Val(vars, IfaceVar(p.0, p.1)) == Iface(p.0, p.1) <==>
              Held(m, Singles(m, order), IfaceVar(p.0, p.1)) == Some(Iface(p.0, p.1))
    {
      assert Seen(vars, IfaceVar(p.0, p.1)) == Held(m, Singles(m, order), IfaceVar(p.0, p.1));
    }
  }

  // --- For every iteration order ---

  /** No other component has an interface with this one's variable, and of its own component's it
      is the last. */
  ghost predicate Owns(m: Manifest, n: string, x: string) {
    && Offers(m, n, x)
    && (forall b, y :: Offers(m, b, y) && IfaceVar(b, y) == IfaceVar(n, x) ==> b == n)
    && HeldOf(n, m.components[n].ifaces, IfaceVar(n, x)) == Some(x)
  }

  /** The dispatcher and the wiring targets are made by the program, and every interface used owns
      its variable. */
  ghost predicate MeansOk(m: Manifest)
    requires Generable(m)
  {
    TargetsMade(m) && forall p :: p in Uses(m) ==> Owns(m, p.0, p.1)
  }

  lemma {:induction false} OwnedHeld(m: Manifest, names: seq<string>, n: string, x: string)
    requires Known(m, names) && (forall c :: c in names ==> Single(m, c)) && n in names && Owns(m, n, x)
    ensures Held(m, names, IfaceVar(n, x)) == Some(Iface(n, x))
    decreases |names|
  {
    var k := |names| - 1;
    assert names == names[..k] + [names[k]];
    if names[k] != n {
      HeldOfIs(names[k], m.components[names[k]].ifaces, IfaceVar(n, x));
      assert forall y :: y in m.components[names[k]].ifaces ==> Offers(m, names[k], y);
      OwnedHeld(m, names[..k], n, x);
    }
  }

  /** Some iteration order ends with this component. */
  lemma OrderEnding(m: Manifest, c: string) returns (order: seq<string>)
    requires c in m.components
    ensures OrderOf(m, order) && order != [] && order[|order| - 1] == c
  {
    var rest := Listed(m.components.Keys - {c});
    order := rest + [c];
    assert forall n :: n in order <==> n in rest || n == c;
  }

  lemma {:induction false} Listed(names: set<string>) returns (order: seq<string>)
    ensures NoDup(order) && forall n :: n in order <==> n in names
  {
    if names == {} {
      order := [];
    } else {
      var n :| n in names;
      var rest := Listed(names - {n});
      order := rest + [n];
      assert forall c :: c in order <==> c in rest || c == n;
    }
  }

  /** An interface that does not own its variable is not the last queried in some order. */
  lemma NotOwned(m: Manifest, n: string, x: string) returns (order: seq<string>)
    requires Offers(m, n, x) && !Owns(m, n, x)
    ensures OrderOf(m, order) && Known(m, order)
    ensures Held(m, Singles(m, order), IfaceVar(n, x)) != Some(Iface(n, x))
  {
    if b, y :| Offers(m, b, y) && IfaceVar(b, y) == IfaceVar(n, x) && b != n {
      HeldOfIs(b, m.components[b].ifaces, IfaceVar(n, x));
      order := HeldLast(m, b, IfaceVar(n, x));
    } else {
      HeldOfIs(n, m.components[n].ifaces, IfaceVar(n, x));
      order := HeldLast(m, n, IfaceVar(n, x));
    }
  }

  /** A component that comes last keeps the variable. */
  lemma HeldLast(m: Manifest, c: string, v: string) returns (order: seq<string>)
    requires Single(m, c) && HeldOf(c, m.components[c].ifaces, v).Some?
    ensures OrderOf(m, order) && Known(m, order)
    ensures Held(m, Singles(m, order), v) == Some(Iface(c, HeldOf(c, m.components[c].ifaces, v).value))
  {
    order := OrderEnding(m, c);
    assert Known(m, order) by {
      assert forall i :: 0 <= i < |order| ==> order[i] in order;
    }
    var singles := Singles(m, order);
    assert singles == Singles(m, order[..|order| - 1]) + [c];
    assert singles[|singles| - 1] == c;
  }

  /** The composer's program does what the manifest means, whatever the order of the component map,
      if and only if the dispatcher and the wiring targets are made by the program and every
      interface wired, hooked or exported owns its variable. */
  lemma MeansExactly(m: Manifest)
    requires Accepted(m) && Generable(m)
    ensures (forall order :: OrderOf(m, order) && Known(m, order) ==> RunsRight(m, order)) <==> MeansOk(m)
  {
    if MeansOk(m) {
      forall order | OrderOf(m, order) && Known(m, order) ensures RunsRight(m, order) {
        ProgramMeans(m, order);
      }
    } else {
      var order := Mistaken(m);
    }
  }

  /** The program, for any iteration order. */
  lemma ProgramMeans(m: Manifest, order: seq<string>)
    requires Accepted(m) && Generable(m) && MeansOk(m) && OrderOf(m, order) && Known(m, order)
    ensures Exec(m, BLANK, Program(m, order)).Some?
    ensures Exec(m, BLANK, Program(m, order)).value.log == Meaning(m, order)
  {
    CompsAre(m, order);
    forall p | p in Uses(m) ensures Held(m, Singles(m, order), IfaceVar(p.0, p.1)) == Some(Iface(p.0, p.1)) {
      OwnedHeld(m, Singles(m, order), p.0, p.1);
    }
    OwnedScope(m);
    RunsExactly(m, order);
  }

  lemma OwnedScope(m: Manifest)
    requires Accepted(m) && Generable(m) && MeansOk(m)
    ensures ScopeOk(m)
  {
    forall i | 0 <= i < |m.wiring| ensures Resolved(m, IfaceVar(m.wiring[i].source, Chosen(m, m.wiring[i]))) {
      assert (m.wiring[i].source, Chosen(m, m.wiring[i])) in WireUses(m);
      assert Owns(m, m.wiring[i].source, Chosen(m, m.wiring[i]));
    }
    forall i | 0 <= i < |m.exports| ensures Resolved(m, IfaceVar(m.exports[i].component, m.exports[i].iface)) {
      assert (m.exports[i].component, m.exports[i].iface) in ExportUses(m);
      assert Owns(m, m.exports[i].component, m.exports[i].iface);
    }
  }

  /** Otherwise some order goes wrong. */
  lemma Mistaken(m: Manifest) returns (order: seq<string>)
    requires Accepted(m) && Generable(m) && !MeansOk(m)
    ensures OrderOf(m, order) && Known(m, order) && !RunsRight(m, order)
  {
    order := Listed(m.components.Keys);
    assert forall i :: 0 <= i < |order| ==> order[i] in order;
    RunsExactly(m, order);
    if TargetsMade(m) {
      var p :| p in Uses(m) && !Owns(m, p.0, p.1);
      if Offers(m, p.0, p.1) {
        order := NotOwned(m, p.0, p.1);
        RunsExactly(m, order);
      } else {
        CompsAre(m, order);
        HeldIs(m, Singles(m, order), IfaceVar(p.0, p.1));
      }
    }
  }

  // --- Manifests that pass validation ---

  /** No two interfaces share a variable. */
  ghost predicate CollisionFree(m: Manifest) {
    forall a, x, b, y ::
      (Offers(m, a, x) && Offers(m, b, y) && IfaceVar(a, x) == IfaceVar(b, y)) ==> a == b && x == y
  }

  /** It is enough that no two interfaces share a variable, and that the interfaces wired and
      exported are provided by components the program makes. */
  lemma CollisionFreeMeans(m: Manifest)
    requires Accepted(m) && Generable(m) && TargetsMade(m) && CollisionFree(m)
    requires forall i :: 0 <= i < |m.wiring| ==> Offers(m, m.wiring[i].source, Chosen(m, m.wiring[i]))
    requires forall i :: 0 <= i < |m.exports| ==> Single(m, m.exports[i].component)
    ensures MeansOk(m)
  {
    forall p | p in Uses(m) ensures Owns(m, p.0, p.1) {
      assert Offers(m, p.0, p.1) by {
        if p in HookUses(m) {
          var n :| n in Singles(m, m.initOrder) && m.components[n].hook.Some? && p == (n, FirstIface(m, n));
        }
      }
      HeldOfIs(p.0, m.components[p.0].ifaces, IfaceVar(p.0, p.1));
    }
  }

  /** Validation accepts a manifest whose program uses a variable it never defines: a dispatcher
      that is a factory. */
  lemma FactoryDispatcher(m: Manifest, order: seq<string>)
    requires m == Manifest(map["dispatcher" := Decl([], None, true, [])], [], [], []) && order == ["dispatcher"]
    ensures Accepted(m) && Generable(m) && OrderOf(m, order) && Known(m, order)
    ensures !ScopedAfter({}, Program(m, order)) && Exec(m, BLANK, Program(m, order)) == None
  {
    ScopedExactly(m, order);
    BlankScoped(m, Program(m, order));
  }

  const SHARED := Manifest(map["dispatcher" := Decl([], None, false, ["r"]), "x" := Decl(["IA_B"], None, false, []),
                               "x_a" := Decl(["IB"], None, false, [])],
                           [Wiring("dispatcher.r", "x", None)], [], [])

  lemma SharedWiring()
    ensures Split("dispatcher.r", '.') == ["dispatcher", "r"]
    ensures Choosable(SHARED, SHARED.wiring[0]) && Chosen(SHARED, SHARED.wiring[0]) == "IA_B"
  {
    SplitTarget("dispatcher", "r");
    assert "dispatcher" + "." + "r" == "dispatcher.r";
  }

  lemma SharedAccepted()
    ensures Accepted(SHARED)
  {
    SharedWiring();
    forall n | n in SHARED.components ensures SHARED.components[n].hook.None? {
    }
    OneWire(SHARED);
  }

  /** A manifest of one wiring and nothing else is accepted if that is. */
  lemma OneWire(m: Manifest)
    requires |m.wiring| == 1 && WiringAccepted(m, m.wiring[0]) && m.initOrder == [] && m.exports == []
    requires forall n :: n in m.components ==> m.components[n].hook.None?
    ensures Accepted(m)
  {
  }

  lemma SharedGenerable()
    ensures Generable(SHARED) && TargetsMade(SHARED)
    ensures Offers(SHARED, "x", "IA_B") && Offers(SHARED, "x_a", "IB")
  {
    SharedWiring();
    assert Single(SHARED, "dispatcher") && "block_device" !in SHARED.components;
    assert Singles(SHARED, SHARED.initOrder) == [];
  }

  /** One wiring: in scope if its interface is provided. */
  lemma WireScoped(m: Manifest)
    requires Accepted(m) && Generable(m) && TargetsMade(m) && |m.wiring| == 1 && m.exports == []
    requires Offers(m, m.wiring[0].source, Chosen(m, m.wiring[0]))
    ensures ScopeOk(m)
  {
    assert Resolved(m, IfaceVar(m.wiring[0].source, Chosen(m, m.wiring[0])));
    assert WiringsResolved(m) && ExportsResolved(m);
  }

  /** A wiring whose interface shares its variable with another component's. */
  lemma WireShared(m: Manifest, n: string, x: string, b: string, y: string)
    requires Generable(m) && (n, x) in WireUses(m) && Offers(m, b, y) && b != n && IfaceVar(b, y) == IfaceVar(n, x)
    ensures !MeansOk(m)
  {
    assert (n, x) in Uses(m);
    assert !Owns(m, (n, x).0, (n, x).1);
  }

  /** Validation accepts a manifest whose program is in scope and wires the wrong interface: x's
      IA_B and x_a's IB have the same variable, and x_a may come later in the map. */
  lemma SharedVariable() returns (order: seq<string>)
    ensures Accepted(SHARED) && Generable(SHARED) && ScopeOk(SHARED)
    ensures OrderOf(SHARED, order) && Known(SHARED, order) && !RunsRight(SHARED, order)
  {
    SharedAccepted();
    SharedGenerable();
    SharedWiring();
    SharedNames();
    WireScoped(SHARED);
    assert (SHARED.wiring[0].source, Chosen(SHARED, SHARED.wiring[0])) in WireUses(SHARED);
    WireShared(SHARED, "x", "IA_B", "x_a", "IB");
    order := Mistaken(SHARED);
  }

  lemma SharedNames()
    ensures IfaceVar("x", "IA_B") == IfaceVar("x_a", "IB")
  {
    assert Lower("IA_B") == "ia_b" && Lower("IB") == "ib";
    assert "ia_b"[1..] == "a_b" && "ib"[1..] == "b";
    assert TrimI("ia_b") == TrimI("a_b") == "a_b";
    assert TrimI("ib") == TrimI("b") == "b";
    assert "iface_" + "x" + "_" + "a_b" == "iface_" + "x_a" + "_" + "b";
  }
}
