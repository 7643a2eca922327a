/** Flattening a conversation trace: every request becomes at most one row, and the hash ids
    local to a conversation are moved into a range of their own. */
module TraceRemaps {
  import opened Common

  /** A request's fields, each of which may be missing. */
  datatype Request = Request(model: Option<string>, inputs: Option<int>, outputs: Option<int>,
                             hashIds: Option<seq<int>>, t: Option<real>)
  datatype Conversation = Conversation(blockSize: Option<int>, requests: seq<Request>)
  datatype Options = Options(model: Option<string>, maxContext: int)
  datatype Row = Row(timestamp: real, inputLength: int, outputLength: int, hashIds: seq<int>)

  // --- Ranges of ids ---

  function IdsOf(r: Request): (ids: seq<int>) {
    match r.hashIds
    case Some(ids) => ids
    case None => []
  }

  /** The largest of top and the ids. */
  function Top(top: int, ids: seq<int>): (r: int)
    ensures r >= top && forall i :: 0 <= i < |ids| ==> ids[i] <= r
    ensures r == top || r in ids
  {
    if ids == [] then top else
      var rest := Top(top, ids[..|ids| - 1]);
      var last := ids[|ids| - 1];
      if last > rest then last else rest
  }

  /** The largest local id of the requests, at least -1. */
  function MaxLocal(requests: seq<Request>): (r: int)
    ensures r >= -1
    ensures forall q, i :: 0 <= q < |requests| && 0 <= i < |IdsOf(requests[q])| ==> IdsOf(requests[q])[i] <= r
  {
    if requests == [] then -1 else Top(MaxLocal(requests[..|requests| - 1]), IdsOf(requests[|requests| - 1]))
  }

  /** Where conversation c's global ids start. */
  function Base(convs: seq<Conversation>, c: nat): (r: nat)
    requires c <= |convs|
  {
    if c == 0 then 0 else Base(convs, c - 1) + MaxLocal(convs[c - 1].requests) + 1
  }

  lemma {:induction false} BaseGrows(convs: seq<Conversation>, c: nat, d: nat)
    requires c < d <= |convs|
    ensures Base(convs, c) + MaxLocal(convs[c].requests) < Base(convs, d)
    decreases d
  {
    if c < d - 1 {
      BaseGrows(convs, c, d - 1);
    }
  }

  /** x is a local id of conversation c. */
  ghost predicate LocalId(convs: seq<Conversation>, c: nat, x: int) {
    c < |convs| && exists q :: 0 <= q < |convs[c].requests| && x in IdsOf(convs[c].requests[q])
  }

  /** Two global ids are the same exactly when they come from the same conversation and the
      same local id, given that the later conversation's id is not negative. */
  lemma RemapInjective(convs: seq<Conversation>, c: nat, x: int, d: nat, y: int)
    requires LocalId(convs, c, x) && LocalId(convs, d, y)
    requires (c < d ==> y >= 0) && (d < c ==> x >= 0)
    ensures Base(convs, c) + x == Base(convs, d) + y <==> c == d && x == y
  {
    var q :| 0 <= q < |convs[c].requests| && x in IdsOf(convs[c].requests[q]);
    var p :| 0 <= p < |convs[d].requests| && y in IdsOf(convs[d].requests[p]);
    if c < d {
      BaseGrows(convs, c, d);
    } else if d < c {
      BaseGrows(convs, d, c);
    }
  }

  /** Local id y of conversation d and local id x of the earlier conversation c get one global id. */
  ghost predicate Collide(convs: seq<Conversation>, c: nat, x: int, d: nat, y: int) {
    c < d && LocalId(convs, c, x) && LocalId(convs, d, y) && Base(convs, c) + x == Base(convs, d) + y
  }

  /** A later conversation's local id never collides with an earlier one's exactly if it is not
      negative. */
  lemma RemapExactly(y: int)
    ensures (forall convs, c, x, d :: !Collide(convs, c, x, d, y)) <==> y >= 0
  {
    if y >= 0 {
      forall convs, c, x, d ensures !Collide(convs, c, x, d, y) {
        if Collide(convs, c, x, d, y) {
          RemapInjective(convs, c, x, d, y);
        }
      }
    } else {
      var a, b := OnlyIds([-y - 1, 0]), OnlyIds([y]);
      NegativeIdsCollide(a, b, y);
    }
  }

  function OnlyIds(ids: seq<int>): (r: Request) {
    Request(None, None, None, Some(ids), None)
  }

  /** Every negative id collides in some trace: here conversation 1's id y with conversation 0's
      id 0. */
  lemma NegativeIdsCollide(a: Request, b: Request, y: int)
    requires y < 0 && a.hashIds == Some([-y - 1, 0]) && b.hashIds == Some([y])
    ensures Collide([Conversation(None, [a]), Conversation(None, [b])], 0, 0, 1, y)
  {
    var convs := [Conversation(None, [a]), Conversation(None, [b])];
    assert IdsOf(convs[0].requests[0]) == [-y - 1, 0] && IdsOf(convs[1].requests[0]) == [y];
    assert 0 in IdsOf(convs[0].requests[0]) && y in IdsOf(convs[1].requests[0]);
    assert [a][..0] == [] && MaxLocal([]) == -1;
    assert [-y - 1, 0][..1] == [-y - 1] && [-y - 1][..0] == [] && Top(-1, []) == -1;
    assert Top(-1, [-y - 1]) == -y - 1 == Top(-1, [-y - 1, 0]);
    assert MaxLocal([a]) == -y - 1;
    assert Base(convs, 0) == 0;
  }

  // --- What becomes of a request ---

  /** Filtered by model, incomplete, over the context limit, at odds with its block size, without
      a timestamp, or written out. */
  datatype Fate = Filtered | Incomplete | OverContext | Bad | Untimed | Emitted

  /** Python's math.ceil(n / d), exactly. */
  function CeilDiv(n: int, d: int): (r: int)
    requires d != 0
  {
    if d > 0 then -((-n) / d) else -(n / (-d))
  }

  lemma CeilDivIs(n: int, d: int)
    requires d > 0
    ensures (CeilDiv(n, d) - 1) * d < n <= CeilDiv(n, d) * d
  {
    var q := (-n) / d;
    assert -n == q * d + (-n) % d;
    assert (-q - 1) * d == -(q * d) - d;
  }

  predicate Fits(bs: Option<int>, r: Request)
    requires r.inputs.Some? && r.hashIds.Some?
  {
    bs == None || bs == Some(0) || CeilDiv(r.inputs.value, bs.value) == |r.hashIds.value|
  }

  function FateOf(opts: Options, bs: Option<int>, r: Request): (f: Fate) {
    if opts.model.Some? && r.model != opts.model then Filtered
    else if r.inputs.None? || r.outputs.None? || r.hashIds.None? then Incomplete
    else if opts.maxContext != 0 && r.inputs.value + r.outputs.value > opts.maxContext then OverContext
    else if !Fits(bs, r) then Bad
    else if r.t.None? then Untimed
    else Emitted
  }

  function Shifted(base: int, ids: seq<int>): (r: seq<int>) {
    seq(|ids|, i requires 0 <= i < |ids| => base + ids[i])
  }

  function RowOf(base: int, r: Request): (row: Row)
    requires r.inputs.Some? && r.outputs.Some? && r.hashIds.Some? && r.t.Some?
  {
    Row(r.t.value, r.inputs.value, r.outputs.value, Shifted(base, r.hashIds.value))
  }

  // --- Counting ---

  datatype Stats = Stats(conversations: nat, requests: nat, rows: nat, incomplete: nat, overContext: nat, bad: nat,
                         blockSize: Option<int>)

  /** Requests of this fate. */
  ghost function CountIn(opts: Options, bs: Option<int>, requests: seq<Request>, f: Fate): nat {
    if requests == [] then 0 else
      var k := |requests| - 1;
      CountIn(opts, bs, requests[..k], f) + if FateOf(opts, bs, requests[k]) == f then 1 else 0
  }

  ghost function CountAll(opts: Options, convs: seq<Conversation>, f: Fate): nat {
    if convs == [] then 0 else
      var c := |convs| - 1;
      CountAll(opts, convs[..c], f) + CountIn(opts, convs[c].blockSize, convs[c].requests, f)
  }

  ghost function AllRequests(convs: seq<Conversation>): nat {
    if convs == [] then 0 else AllRequests(convs[..|convs| - 1]) + |convs[|convs| - 1].requests|
  }

  lemma {:induction false} EveryFateIn(opts: Options, bs: Option<int>, requests: seq<Request>)
    ensures CountIn(opts, bs, requests, Emitted) + CountIn(opts, bs, requests, Filtered)
            + CountIn(opts, bs, requests, Incomplete) + CountIn(opts, bs, requests, OverContext)
            + CountIn(opts, bs, requests, Bad) + CountIn(opts, bs, requests, Untimed)
            == |requests|
  {
    if requests != [] {
      EveryFateIn(opts, bs, requests[..|requests| - 1]);
    }
  }

  /** Every request has exactly one fate. */
  lemma {:induction false} EveryFate(opts: Options, convs: seq<Conversation>)
    ensures CountAll(opts, convs, Emitted) + CountAll(opts, convs, Filtered) + CountAll(opts, convs, Incomplete)
            + CountAll(opts, convs, OverContext) + CountAll(opts, convs, Bad) + CountAll(opts, convs, Untimed)
            == AllRequests(convs)
  {
    if convs != [] {
      var c := |convs| - 1;
      EveryFate(opts, convs[..c]);
      EveryFateIn(opts, convs[c].blockSize, convs[c].requests);
    }
  }

  // --- The converter ---

  /** Row i is the row of the request it comes from, and every request to be written out so far,
      that is before request q of conversation c, has exactly one row, in trace order. */
  ghost predicate RowsOk(opts: Options, convs: seq<Conversation>, c: nat, q: nat, rows: seq<Row>,
                         from: seq<(nat, nat)>) {
    && |from| == |rows|
    && (forall i :: 0 <= i < |from| ==>
          Origin(opts, convs, from[i]) && Earlier(from[i], (c, q)) && RowFor(convs, from[i], rows[i]))
    && (forall i, j :: 0 <= i < j < |from| ==> Earlier(from[i], from[j]))
    && (forall p :: Origin(opts, convs, p) && Earlier(p, (c, q)) ==> p in from)
  }

  ghost predicate RowForOk(convs: seq<Conversation>, p: (nat, nat), row: Row) {
    && p.0 < |convs| && p.1 < |convs[p.0].requests|
    && var r := convs[p.0].requests[p.1];
       && r.inputs.Some? && r.outputs.Some? && r.hashIds.Some? && r.t.Some?
       && row == RowOf(Base(convs, p.0), r)
  }

  /** The row of the request at this place, its ids moved into the conversation's range. Carried
      whole. */
  ghost predicate RowFor(convs: seq<Conversation>, p: (nat, nat), row: Row) {
    forall k {:trigger Open(row, k)} :: Open(row, k) ==> RowForOk(convs, p, row)
  }

  /** The place of a request that is to be written out. */
  ghost predicate Origin(opts: Options, convs: seq<Conversation>, p: (nat, nat)) {
    && p.0 < |convs| && p.1 < |convs[p.0].requests|
    && FateOf(opts, convs[p.0].blockSize, convs[p.0].requests[p.1]) == Emitted
  }

  ghost predicate Earlier(p: (nat, nat), p': (nat, nat)) {
    p.0 < p'.0 || (p.0 == p'.0 && p.1 < p'.1)
  }

  method MaxId(requests: seq<Request>) returns (top: int)
    ensures top == MaxLocal(requests)
  {
    top := -1;
    for q := 0 to |requests|
      invariant top == MaxLocal(requests[..q])
    {
      var ids := IdsOf(requests[q]);
      ghost var before := top;
      for i := 0 to |ids|
        invariant top == Top(before, ids[..i])
      {
        assert ids[..i + 1][..i] == ids[..i];
        if ids[i] > top {
          top := ids[i];
        }
      }
      assert ids[..|ids|] == ids;
      assert requests[..q + 1][..q] == requests[..q];
    }
    assert requests[..|requests|] == requests;
  }

  /** The counters are the numbers of requests of each fate, and none was without a timestamp. */
  ghost predicate StatsOk(st: Stats, total: nat, count: map<Fate, nat>) {
    && count.Keys == {Emitted, Incomplete, OverContext, Bad, Untimed}
    && st.requests == total && st.rows == count[Emitted] && st.incomplete == count[Incomplete]
    && st.overContext == count[OverContext] && st.bad == count[Bad] && count[Untimed] == 0
  }

  /** The fates of the conversations before c and of the first q requests of c. */
  ghost function Counts(opts: Options, convs: seq<Conversation>, c: nat, q: nat): map<Fate, nat>
    requires c <= |convs| && (if c == |convs| then q == 0 else q <= |convs[c].requests|)
  {
    map f | f in {Emitted, Incomplete, OverContext, Bad, Untimed} ::
      CountAll(opts, convs[..c], f) +
      if c == |convs| then 0 else CountIn(opts, convs[c].blockSize, convs[c].requests[..q], f)
  }

  lemma CountsNext(opts: Options, convs: seq<Conversation>, c: nat, q: nat, f: Fate)
    requires c < |convs| && q < |convs[c].requests| && f in {Emitted, Incomplete, OverContext, Bad, Untimed}
    ensures Counts(opts, convs, c, q + 1)[f] ==
            Counts(opts, convs, c, q)[f] + if FateOf(opts, convs[c].blockSize, convs[c].requests[q]) == f then 1 else 0
  {
    CountNext(opts, convs[c].blockSize, convs[c].requests, q, f);
  }

  lemma StatsNext(opts: Options, convs: seq<Conversation>, c: nat, q: nat)
    requires c < |convs| && q < |convs[c].requests|
    ensures var f := FateOf(opts, convs[c].blockSize, convs[c].requests[q]);
            var a, b := Counts(opts, convs, c, q), Counts(opts, convs, c, q + 1);
            && b[Emitted] == a[Emitted] + (if f == Emitted then 1 else 0)
            && b[Incomplete] == a[Incomplete] + (if f == Incomplete then 1 else 0)
            && b[OverContext] == a[OverContext] + (if f == OverContext then 1 else 0)
            && b[Bad] == a[Bad] + (if f == Bad then 1 else 0)
            && b[Untimed] == a[Untimed] + (if f == Untimed then 1 else 0)
  {
    CountsNext(opts, convs, c, q, Emitted);
    CountsNext(opts, convs, c, q, Incomplete);
    CountsNext(opts, convs, c, q, OverContext);
    CountsNext(opts, convs, c, q, Bad);
    CountsNext(opts, convs, c, q, Untimed);
  }

  lemma CountsTurn(opts: Options, convs: seq<Conversation>, c: nat)
    requires c < |convs|
    ensures Counts(opts, convs, c + 1, 0) == Counts(opts, convs, c, |convs[c].requests|)
    ensures AllRequests(convs[..c + 1]) == AllRequests(convs[..c]) + |convs[c].requests|
  {
    assert convs[..c + 1][..c] == convs[..c];
    var rs := convs[c].requests;
    assert rs[..|rs|] == rs;
    forall f | f in {Emitted, Incomplete, OverContext, Bad, Untimed}
      ensures Counts(opts, convs, c + 1, 0)[f] == Counts(opts, convs, c, |rs|)[f]
    {
      if c + 1 < |convs| {
        assert convs[c + 1].requests[..0] == [];
      }
    }
  }

  lemma CountNext(opts: Options, bs: Option<int>, requests: seq<Request>, q: nat, f: Fate)
    requires q < |requests|
    ensures CountIn(opts, bs, requests[..q + 1], f) ==
            CountIn(opts, bs, requests[..q], f) + if FateOf(opts, bs, requests[q]) == f then 1 else 0
  {
    assert requests[..q + 1][..q] == requests[..q];
  }

  /** One request is counted, and written out if that is its fate. */
  method ConvertRequest(opts: Options, bs: Option<int>, base: int, r: Request, st: Stats)
    returns (o: Outcome, st': Stats, row: Option<Row>)
    ensures o.Raised? <==> FateOf(opts, bs, r) == Untimed
    ensures var f := FateOf(opts, bs, r);
            o.Ok? ==>
              && st' == st.(requests := st.requests + 1,
                            rows := st.rows + (if f == Emitted then 1 else 0),
                            incomplete := st.incomplete + (if f == Incomplete then 1 else 0),
                            overContext := st.overContext + (if f == OverContext then 1 else 0),
                            bad := st.bad + (if f == Bad then 1 else 0))
              && row == if f == Emitted then Some(RowOf(base, r)) else None
  {
    o, st', row := Ok, st.(requests := st.requests + 1), None;
    if opts.model.Some? && r.model != opts.model {
      return;
    }
    if r.inputs.None? || r.outputs.None? || r.hashIds.None? {
      st' := st'.(incomplete := st.incomplete + 1);
      return;
    }
    if opts.maxContext != 0 && r.inputs.value + r.outputs.value > opts.maxContext {
      st' := st'.(overContext := st.overContext + 1);
      return;
    }
    var ids := Shifted(base, r.hashIds.value);
    if bs.Some? && bs.value != 0 && CeilDiv(r.inputs.value, bs.value) != |ids| {
      st' := st'.(bad := st.bad + 1);
      return;
    }
    if r.t.None? {
      return Raised, st', None;
    }
    st' := st'.(rows := st.rows + 1);
    row := Some(Row(r.t.value, r.inputs.value, r.outputs.value, ids));
  }

  lemma RowsNext(opts: Options, convs: seq<Conversation>, c: nat, q: nat, rows: seq<Row>, from: seq<(nat, nat)>,
                 row: Option<Row>)
    requires RowsOk(opts, convs, c, q, rows, from) && c < |convs| && q < |convs[c].requests|
    requires Origin(opts, convs, (c, q)) <==> row.Some?
    requires row.Some? ==> RowFor(convs, (c, q), row.value)
    ensures row.Some? ==> RowsOk(opts, convs, c, q + 1, rows + [row.value], from + [(c, q)])
    ensures row.None? ==> RowsOk(opts, convs, c, q + 1, rows, from)
  {
    forall p | Earlier(p, (c, q + 1)) ensures Earlier(p, (c, q)) || p == (c, q) {
    }
    if row.Some? {
      RowAdded(opts, convs, c, q, rows, from, row.value);
    }
  }

  lemma RowAdded(opts: Options, convs: seq<Conversation>, c: nat, q: nat, rows: seq<Row>, from: seq<(nat, nat)>,
                 row: Row)
    requires RowsOk(opts, convs, c, q, rows, from) && Origin(opts, convs, (c, q)) && RowFor(convs, (c, q), row)
    ensures RowsOk(opts, convs, c, q + 1, rows + [row], from + [(c, q)])
  {
    var from' := from + [(c, q)];
    forall p | Origin(opts, convs, p) && Earlier(p, (c, q + 1)) ensures p in from' {
      assert Earlier(p, (c, q)) || p == (c, q);
    }
  }

  lemma RowsTurn(opts: Options, convs: seq<Conversation>, c: nat, rows: seq<Row>, from: seq<(nat, nat)>)
    requires c < |convs| && RowsOk(opts, convs, c, |convs[c].requests|, rows, from)
    ensures RowsOk(opts, convs, c + 1, 0, rows, from)
  {
    forall p | Origin(opts, convs, p) && Earlier(p, (c + 1, 0)) ensures Earlier(p, (c, |convs[c].requests|)) {
    }
  }

  /** The requests of one conversation. */
  method ConvertConversation(opts: Options, convs: seq<Conversation>, c: nat, base: int, rows0: seq<Row>, st0: Stats,
                             ghost from0: seq<(nat, nat)>)
    returns (o: Outcome, rows: seq<Row>, st: Stats, ghost from: seq<(nat, nat)>)
    requires c < |convs| && base == Base(convs, c)
    requires RowsOk(opts, convs, c, 0, rows0, from0) && StatsOk(st0, AllRequests(convs[..c]), Counts(opts, convs, c, 0))
    ensures o.Ok? ==> RowsOk(opts, convs, c + 1, 0, rows, from)
    ensures o.Ok? ==> StatsOk(st, AllRequests(convs[..c + 1]), Counts(opts, convs, c + 1, 0))
    ensures o.Ok? ==> st.conversations == st0.conversations && st.blockSize == st0.blockSize
    ensures o.Raised? ==> exists q :: 0 <= q < |convs[c].requests| &&
                                      FateOf(opts, convs[c].blockSize, convs[c].requests[q]) == Untimed
  {
    rows, st, from := rows0, st0, from0;
    var bs, rs := convs[c].blockSize, convs[c].requests;
    for q := 0 to |rs|
      invariant RowsOk(opts, convs, c, q, rows, from)
      invariant StatsOk(st, AllRequests(convs[..c]) + q, Counts(opts, convs, c, q))
      invariant st.conversations == st0.conversations && st.blockSize == st0.blockSize
    {
      var row;
      o, st, row := ConvertRequest(opts, bs, base, rs[q], st);
      if o.Raised? {
        return;
      }
      RowsNext(opts, convs, c, q, rows, from, row);
      StatsNext(opts, convs, c, q);
      if row.Some? {
        rows, from := rows + [row.value], from + [(c, q)];
      }
    }
    CountsTurn(opts, convs, c);
    RowsTurn(opts, convs, c, rows, from);
    o := Ok;
  }

  /** The block size the converter reports: the first one given. */
  function Reported(convs: seq<Conversation>): (r: Option<int>) {
    if convs == [] then None else
      var before := Reported(convs[..|convs| - 1]);
      if before.None? then convs[|convs| - 1].blockSize else before
  }

  /** Converts a whole trace. It raises exactly when a request that would be written out has no
      timestamp; otherwise each request to be written out has exactly one row, in order, and the
      counters say what became of the rest. */
  method Convert(opts: Options, convs: seq<Conversation>)
    returns (o: Outcome, rows: seq<Row>, st: Stats, ghost from: seq<(nat, nat)>)
    ensures o.Ok? ==> RowsOk(opts, convs, |convs|, 0, rows, from)
    ensures o.Ok? ==> StatsOk(st, AllRequests(convs), Counts(opts, convs, |convs|, 0))
    ensures o.Ok? ==> st.conversations == |convs| && st.blockSize == Reported(convs)
    ensures o.Raised? ==> exists c, q :: 0 <= c < |convs| && 0 <= q < |convs[c].requests| &&
                                         FateOf(opts, convs[c].blockSize, convs[c].requests[q]) == Untimed
  {
    o, rows, st, from := Ok, [], Stats(0, 0, 0, 0, 0, 0, None), [];
    var nextBase: int := 0;
    CountsStart(opts, convs);
    for c := 0 to |convs|
      invariant nextBase == Base(convs, c)
      invariant RowsOk(opts, convs, c, 0, rows, from)
      invariant StatsOk(st, AllRequests(convs[..c]), Counts(opts, convs, c, 0))
      invariant st.conversations == c && st.blockSize == Reported(convs[..c])
    {
      assert convs[..c + 1][..c] == convs[..c];
      st := st.(conversations := c + 1,
                blockSize := if st.blockSize.None? then convs[c].blockSize else st.blockSize);
      var top := MaxId(convs[c].requests);
      var base := nextBase;
      nextBase := nextBase + top + 1;
      o, rows, st, from := ConvertConversation(opts, convs, c, base, rows, st, from);
      if o.Raised? {
        return;
      }
    }
    assert convs[..|convs|] == convs;
    o := Ok;
  }

  lemma CountsStart(opts: Options, convs: seq<Conversation>)
    ensures StatsOk(Stats(0, 0, 0, 0, 0, 0, None), AllRequests(convs[..0]), Counts(opts, convs, 0, 0))
  {
    if convs != [] {
      assert convs[0].requests[..0] == [];
    }
  }

  // --- What a finished conversion means ---

  /** Every request is counted exactly once. */
  lemma EveryRequestCounted(opts: Options, convs: seq<Conversation>, st: Stats)
    requires StatsOk(st, AllRequests(convs), Counts(opts, convs, |convs|, 0))
    ensures st.requests == AllRequests(convs)
    ensures st.requests == st.rows + CountAll(opts, convs, Filtered) + st.incomplete + st.overContext + st.bad
  {
    assert convs[..|convs|] == convs;
    EveryFate(opts, convs);
  }

  /** Two emitted ids are equal exactly when they name the same block of the same conversation. */
  lemma GlobalIds(opts: Options, convs: seq<Conversation>, rows: seq<Row>, from: seq<(nat, nat)>,
                  i: nat, a: nat, j: nat, b: nat)
    requires RowsOk(opts, convs, |convs|, 0, rows, from)
    requires forall c, x :: c > 0 && LocalId(convs, c, x) ==> x >= 0
    requires i < |rows| && j < |rows| && a < |rows[i].hashIds| && b < |rows[j].hashIds|
    ensures var x, y := IdsOf(convs[from[i].0].requests[from[i].1]), IdsOf(convs[from[j].0].requests[from[j].1]);
            && a < |x| && b < |y|
            && (rows[i].hashIds[a] == rows[j].hashIds[b] <==> from[i].0 == from[j].0 && x[a] == y[b])
  {
    assert Open(rows[i], 0) && Open(rows[j], 0);
    var x, y := IdsOf(convs[from[i].0].requests[from[i].1]), IdsOf(convs[from[j].0].requests[from[j].1]);
    assert x[a] in x && y[b] in y;
    assert LocalId(convs, from[i].0, x[a]) && LocalId(convs, from[j].0, y[b]);
    RemapInjective(convs, from[i].0, x[a], from[j].0, y[b]);
  }

  // --- Do the rows fit the reported block size? ---

  ghost predicate HasSizes(convs: seq<Conversation>, sizes: seq<Option<int>>) {
    |convs| == |sizes| && forall c :: 0 <= c < |sizes| ==> convs[c].blockSize == sizes[c]
  }

  /** The first block size given. */
  ghost function FirstSize(sizes: seq<Option<int>>): Option<int> {
    if sizes == [] then None else
      var before := FirstSize(sizes[..|sizes| - 1]);
      if before.None? then sizes[|sizes| - 1] else before
  }

  lemma {:induction false} ReportedFirst(convs: seq<Conversation>, sizes: seq<Option<int>>)
    requires HasSizes(convs, sizes)
    ensures Reported(convs) == FirstSize(sizes)
  {
    if sizes != [] {
      ReportedFirst(convs[..|convs| - 1], sizes[..|sizes| - 1]);
    }
  }

  /** The row's ids are as many as its input has blocks of this size. */
  ghost predicate RowFits(size: Option<int>, row: Row) {
    size.Some? && size.value != 0 && CeilDiv(row.inputLength, size.value) == |row.hashIds|
  }

  ghost predicate AllFit(size: Option<int>, rows: seq<Row>) {
    forall i :: 0 <= i < |rows| ==> RowFits(size, rows[i])
  }

  /** Whatever the requests and the options, every row of a trace with these block sizes fits the
      reported one. */
  ghost predicate AlwaysFit(sizes: seq<Option<int>>) {
    forall opts, convs, rows, from :: HasSizes(convs, sizes) && RowsOk(opts, convs, |sizes|, 0, rows, from) ==>
      AllFit(Reported(convs), rows)
  }

  /** Every conversation has the reported block size, and it is not zero. */
  ghost predicate Uniform(sizes: seq<Option<int>>) {
    forall c :: 0 <= c < |sizes| ==> sizes[c] == FirstSize(sizes) && sizes[c].Some? && sizes[c].value != 0
  }

  /** Every row fits the block size of its own conversation, if that has one. */
  lemma RowsFit(opts: Options, convs: seq<Conversation>, rows: seq<Row>, from: seq<(nat, nat)>, i: nat)
    requires RowsOk(opts, convs, |convs|, 0, rows, from) && i < |rows|
    ensures from[i].0 < |convs|
    ensures var bs := convs[from[i].0].blockSize;
            bs.Some? && bs.value != 0 ==> RowFits(bs, rows[i])
  {
    var p := from[i];
    assert Origin(opts, convs, p) && Open(rows[i], 0);
    var r := convs[p.0].requests[p.1];
    assert Fits(convs[p.0].blockSize, r);
    assert |rows[i].hashIds| == |r.hashIds.value|;
  }

  /** The options that keep every complete request. */
  const KEEP_ALL := Options(None, 0)

  /** The trace with these block sizes whose only request is in conversation c. */
  ghost function Lone(sizes: seq<Option<int>>, c: nat, r: Request): seq<Conversation> {
    seq(|sizes|, i requires 0 <= i < |sizes| => Conversation(sizes[i], if i == c then [r] else []))
  }

  lemma LoneRow(sizes: seq<Option<int>>, c: nat, r: Request)
    requires c < |sizes| && FateOf(KEEP_ALL, sizes[c], r) == Emitted
    ensures var convs := Lone(sizes, c, r);
            HasSizes(convs, sizes) &&
            RowsOk(KEEP_ALL, convs, |sizes|, 0, [RowOf(Base(convs, c), r)], [(c, 0)])
  {
    var convs := Lone(sizes, c, r);
    assert convs[c].requests == [r];
    assert Origin(KEEP_ALL, convs, (c, 0));
    forall p: (nat, nat) | Origin(KEEP_ALL, convs, p) ensures p == (c, 0) {
      assert p.1 < |convs[p.0].requests|;
    }
  }

  /** One request that is written out and does not fit is enough. */
  lemma {:induction false} Misfit(sizes: seq<Option<int>>, c: nat, n: int, ids: seq<int>)
    requires c < |sizes|
    requires var r := Request(None, Some(n), Some(0), Some(ids), Some(0.0)); FateOf(KEEP_ALL, sizes[c], r) == Emitted
    requires var size := FirstSize(sizes); size.Some? && size.value != 0 ==> CeilDiv(n, size.value) != |ids|
    ensures !AlwaysFit(sizes)
  {
    var r := Request(None, Some(n), Some(0), Some(ids), Some(0.0));
    var convs := Lone(sizes, c, r);
    var row := RowOf(Base(convs, c), r);
    LoneRow(sizes, c, r);
    ReportedFirst(convs, sizes);
    assert !RowFits(Reported(convs), [row][0]);
    assert !AllFit(Reported(convs), [row]);
  }

  lemma CeilOfMore(n: int, d: int)
    requires 0 < d < n
    ensures CeilDiv(n, d) > 1 && CeilDiv(n, n) == 1
  {
    CeilDivIs(n, d);
    AtMostOnce(CeilDiv(n, d), d);
    assert (-n) / n == -1;
  }

  lemma AtMostOnce(q: int, d: int)
    requires d > 0
    ensures q <= 1 ==> q * d <= d
  {
  }

  /** Some input length tells two block sizes apart: the larger of them, or either of two of
      opposite signs. */
  lemma SizesDiffer(a: int, b: int) returns (n: int)
    requires a != 0 && b != 0 && a != b
    ensures CeilDiv(n, a) >= 0 && CeilDiv(n, a) != CeilDiv(n, b)
  {
    if a > 0 && b > 0 {
      n := if a > b then a else b;
      CeilOfMore(n, if a > b then b else a);
    } else if a < 0 && b < 0 {
      n := if a < b then a else b;
      CeilOfMore(-n, if a < b then -b else -a);
    } else {
      n := a;
      OppositeSigns(a, b);
    }
  }

  lemma OppositeSigns(a: int, b: int)
    requires (a > 0 > b) || (a < 0 < b)
    ensures CeilDiv(a, a) == 1 && CeilDiv(a, b) <= 0
  {
    if a > 0 {
      assert (-a) / a == -1;
      assert a / (-b) >= 0;
    } else {
      assert a / (-a) == -1;
      assert (-a) / b >= 0;
    }
  }

  /** Every row of every trace with these block sizes fits the reported one exactly when all the
      conversations have that one, and it is not zero. */
  lemma SizesExactly(sizes: seq<Option<int>>)
    ensures AlwaysFit(sizes) <==> Uniform(sizes)
  {
    if Uniform(sizes) {
      forall opts, convs, rows, from | HasSizes(convs, sizes) && RowsOk(opts, convs, |sizes|, 0, rows, from)
        ensures AllFit(Reported(convs), rows)
      {
        ReportedFirst(convs, sizes);
        forall i | 0 <= i < |rows| ensures RowFits(Reported(convs), rows[i]) {
          RowsFit(opts, convs, rows, from, i);
        }
      }
    } else {
      var c :| 0 <= c < |sizes| && !(sizes[c] == FirstSize(sizes) && sizes[c].Some? && sizes[c].value != 0);
      var first := FirstSize(sizes);
      if sizes[c].None? || sizes[c].value == 0 {
        assert first.Some? && first.value != 0 ==> CeilDiv(0, first.value) == 0;
        Misfit(sizes, c, 0, [0]);
      } else {
        FirstGiven(sizes, c);
        if first.value == 0 {
          Misfit(sizes, c, 0, []);
        } else {
          var n := SizesDiffer(sizes[c].value, first.value);
          Misfit(sizes, c, n, seq(CeilDiv(n, sizes[c].value), _ => 0));
        }
      }
    }
  }

  lemma {:induction false} FirstGiven(sizes: seq<Option<int>>, c: nat)
    requires c < |sizes| && sizes[c].Some?
    ensures FirstSize(sizes).Some?
  {
    if c < |sizes| - 1 {
      FirstGiven(sizes[..|sizes| - 1], c);
    }
  }

  /** For one: 64 tokens in two blocks of 32 are written out though 64 was reported. */
  lemma MixedSizesMisfit(r: Request)
    requires r.inputs == Some(64) && r.hashIds == Some([0, 1]) && r.outputs.Some? && r.t.Some?
    ensures var convs := [Conversation(Some(64), []), Conversation(Some(32), [r])];
            && FateOf(KEEP_ALL, convs[1].blockSize, r) == Emitted
            && Reported(convs) == Some(64) && CeilDiv(64, 64) != |r.hashIds.value|
  {
    var convs := [Conversation(Some(64), []), Conversation(Some(32), [r])];
    assert convs[..1] == [convs[0]] && [convs[0]][..0] == [];
    assert Reported([convs[0]]) == Some(64);
  }
}
