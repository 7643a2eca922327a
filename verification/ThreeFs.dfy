/** The 3FS bench's rolling GPU block allocator and its sizing. */
module ThreeFs {
  import opened Common
  import Sizing

  /** The block after x around the ring. */
  ghost function After(size: nat, x: nat): nat {
    if x + 1 == size then 0 else x + 1
  }

  /** n blocks on from c. */
  ghost function Advance(size: nat, c: nat, n: nat): nat {
    if n == 0 then c else After(size, Advance(size, c, n - 1))
  }

  /** n blocks from c on, one after the other around a ring of `size` blocks. */
  ghost function Window(size: nat, c: nat, n: nat): seq<nat> {
    seq(n, j requires 0 <= j < n => Advance(size, c, j))
  }

  /** The same as arithmetic. */
  function Wrapped(size: nat, c: nat, n: nat): (r: seq<nat>)
    requires size > 0
  {
    seq(n, j requires 0 <= j < n => (c + j) % size)
  }

  class Ring {
    const size: nat
    var cursor: nat

    constructor (size: nat)
      requires size > 0
      ensures this.size == size && cursor == 0
    {
      this.size, cursor := size, 0;
    }

    ghost predicate Valid()
      reads this
    {
      cursor < size
    }

    /** The next n blocks: from the cursor on, each the one after the last, around the ring; they
        are all the ring's, and distinct exactly when there are no more of them than it has. The
        cursor is left after the last one. */
    method AllocBlocks(n: nat) returns (out: seq<nat>)
      requires Valid()
      modifies this
      ensures Valid()
      ensures out == Window(size, old(cursor), n) && cursor == Advance(size, old(cursor), n)
      ensures forall j :: 0 <= j < n ==> out[j] < size
      ensures NoDup(out) <==> n <= size
    {
      WrappedIs(size, cursor, n);
      WindowDistinct(size, cursor, n);
      out := Wrapped(size, cursor, n);
      cursor := (cursor + n) % size;
    }
  }

  lemma DivMod(x: nat, size: nat)
    requires size > 0
    ensures x == x / size * size + x % size && x % size < size
  {
  }

  lemma {:induction false} Times(a: nat, b: nat, size: nat)
    requires a > b
    ensures a * size >= b * size + size
  {
    Distribute(a - 1, 1, size);
    if a > b + 1 {
      Times(a - 1, b, size);
    }
  }

  /** Numbers with the same remainder that are less than a ring apart are the same. */
  lemma OneRemainder(q: nat, r: nat, q': nat, r': nat, size: nat)
    requires r < size && r' < size && q * size + r == q' * size + r'
    ensures r == r'
  {
    if q > q' {
      Times(q, q', size);
    } else if q' > q {
      Times(q', q, size);
    }
  }

  lemma {:induction false} ModTimes(x: nat, q: nat, size: nat)
    requires size > 0
    ensures (x + q * size) % size == x % size
  {
    if q > 0 {
      ModTimes(x, q - 1, size);
      Distribute(q - 1, 1, size);
      ModWrap(x + (q - 1) * size, size);
    }
  }

  lemma ModWrap(y: nat, size: nat)
    requires size > 0
    ensures (y + size) % size == y % size
  {
    DivMod(y, size);
    DivMod(y + size, size);
    Distribute(y / size, 1, size);
    OneRemainder(y / size + 1, y % size, (y + size) / size, (y + size) % size, size);
  }

  lemma ModStep(a: nat, b: nat, size: nat)
    requires size > 0
    ensures (a % size + b) % size == (a + b) % size
  {
    DivMod(a, size);
    ModTimes(a % size + b, a / size, size);
  }

  lemma {:induction false} AdvanceOn(size: nat, c: nat, m: nat, n: nat)
    ensures Advance(size, Advance(size, c, m), n) == Advance(size, c, m + n)
  {
    if n > 0 {
      AdvanceOn(size, c, m, n - 1);
    }
  }

  /** Two allocations in a row are one allocation of both sizes. */
  lemma WindowJoin(size: nat, c: nat, m: nat, n: nat)
    ensures Window(size, c, m) + Window(size, Advance(size, c, m), n) == Window(size, c, m + n)
  {
    forall j: nat | j < n ensures Advance(size, Advance(size, c, m), j) == Advance(size, c, m + j) {
      AdvanceOn(size, c, m, j);
    }
  }

  /** Going on n blocks is adding n, modulo the ring. */
  lemma {:induction false} AdvanceIs(size: nat, c: nat, n: nat)
    requires c < size
    ensures Advance(size, c, n) == (c + n) % size
  {
    if n > 0 {
      AdvanceIs(size, c, n - 1);
      ModAfter(c + n - 1, size);
    } else {
      Small(c, size);
    }
  }

  lemma Small(x: nat, size: nat)
    requires x < size
    ensures x % size == x
  {
  }

  lemma ModAfter(x: nat, size: nat)
    requires size > 0
    ensures (x + 1) % size == After(size, x % size)
  {
    ModStep(x, 1, size);
    DivMod(x, size);
    var y := x % size + 1;
    if y == size {
      ModWrap(0, size);
    } else {
      Small(y, size);
    }
  }

  lemma WrappedIs(size: nat, c: nat, n: nat)
    requires c < size
    ensures Wrapped(size, c, n) == Window(size, c, n) && (c + n) % size == Advance(size, c, n)
  {
    forall j: nat | j <= n ensures (c + j) % size == Advance(size, c, j) {
      AdvanceIs(size, c, j);
    }
  }

  lemma ModApart(x: nat, d: nat, size: nat)
    requires 0 < d < size
    ensures x % size != (x + d) % size
  {
    DivMod(x, size);
    DivMod(x + d, size);
    var q, q' := x / size, (x + d) / size;
    if q' > q {
      Times(q', q, size);
    } else if q > q' {
      Times(q, q', size);
    }
  }

  /** The ids are pairwise distinct exactly when no more are asked for than the ring has. */
  lemma WindowDistinct(size: nat, c: nat, n: nat)
    requires c < size
    ensures NoDup(Window(size, c, n)) <==> n <= size
    ensures forall j :: 0 <= j < n ==> Window(size, c, n)[j] < size
  {
    forall j: nat | j < n ensures Advance(size, c, j) < size {
      AdvanceIs(size, c, j);
    }
    if n <= size {
      forall i, j | 0 <= i < j < n ensures Advance(size, c, i) != Advance(size, c, j) {
        AdvanceApart(size, c, i, j);
      }
    } else {
      AdvanceRound(size, c);
      assert Window(size, c, n)[0] == Window(size, c, n)[size];
    }
  }

  lemma AdvanceApart(size: nat, c: nat, i: nat, j: nat)
    requires c < size && i < j < i + size
    ensures Advance(size, c, i) != Advance(size, c, j)
  {
    AdvanceIs(size, c, i);
    AdvanceIs(size, c, j);
    ModApart(c + i, j - i, size);
  }

  lemma AdvanceRound(size: nat, c: nat)
    requires c < size
    ensures Advance(size, c, size) == c
  {
    AdvanceIs(size, c, size);
    ModWrap(c, size);
    Small(c, size);
  }

  // --- One scheduler step ---

  datatype Params = Params(numBlocks: nat, requestsPerStep: nat, jobBlocks: nat, inflight: nat,
                           storeJobBlocks: nat, storeInflight: nat, bs: nat)

  function KeysPerRequest(p: Params): (r: nat)
    requires p.requestsPerStep > 0
  {
    Sizing.KeysPerRequest(p.numBlocks, p.requestsPerStep)
  }

  /** Blocks in the ring. */
  function RingSize(p: Params): (r: nat)
    requires p.requestsPerStep > 0
  {
    Sizing.Max(Sizing.Max(p.inflight * p.jobBlocks + p.storeInflight * p.storeJobBlocks,
                          2 * p.requestsPerStep * KeysPerRequest(p)), p.bs) + p.bs
  }

  /** Blocks in the shared prefix pool. */
  function PoolSize(p: Params): (r: nat)
    requires p.requestsPerStep > 0
  {
    Sizing.PrefixPool(p.numBlocks, KeysPerRequest(p))
  }

  /** After `total` blocks since cursor position c, the next n. */
  method AllocNext(ring: Ring, n: nat, ghost c: nat, ghost total: nat) returns (blocks: seq<nat>)
    requires ring.Valid() && ring.cursor == Advance(ring.size, c, total)
    modifies ring
    ensures ring.Valid() && ring.cursor == Advance(ring.size, c, total + n)
    ensures |blocks| == n && Window(ring.size, c, total) + blocks == Window(ring.size, c, total + n)
  {
    WindowJoin(ring.size, c, total, n);
    AdvanceOn(ring.size, c, total, n);
    blocks := ring.AllocBlocks(n);
  }

  /** Submits the loads in turn: together they get one stretch of the ring. */
  method SubmitLoads(ring: Ring, loads: seq<seq<Key>>) returns (ids: seq<seq<nat>>)
    requires ring.Valid()
    modifies ring
    ensures ring.Valid()
    ensures |ids| == |loads| && forall i :: 0 <= i < |loads| ==> |ids[i]| == |loads[i]|
    ensures Joined<nat>(ids) == Window(ring.size, old(ring.cursor), |Joined<Key>(loads)|)
  {
    ids := [];
    ghost var c, total := ring.cursor, 0;
    for i := 0 to |loads|
      invariant ring.Valid() && |ids| == i
      invariant forall k :: 0 <= k < i ==> |ids[k]| == |loads[k]|
      invariant total == |Joined<Key>(loads[..i])| && ring.cursor == Advance(ring.size, c, total)
      invariant Joined<nat>(ids) == Window(ring.size, c, total)
    {
      assert loads[..i + 1] == loads[..i] + [loads[i]];
      JoinedNext<Key>(loads[..i], loads[i]);
      var blocks := AllocNext(ring, |loads[i]|, c, total);
      JoinedNext<nat>(ids, blocks);
      ids, total := ids + [blocks], total + |loads[i]|;
    }
    assert loads[..|loads|] == loads;
  }

  /** The longest prefix of the keys that is stored. */
  ghost function StoredPrefix(keys: seq<Key>, stored: set<Key>): seq<Key> {
    if keys == [] || keys[0] !in stored then [] else [keys[0]] + StoredPrefix(keys[1..], stored)
  }

  lemma {:induction false} StoredPrefixIs(keys: seq<Key>, stored: set<Key>, h: nat)
    requires h <= |keys| && (forall i :: 0 <= i < h ==> keys[i] in stored) && (h < |keys| ==> keys[h] !in stored)
    ensures StoredPrefix(keys, stored) == keys[..h]
  {
    if h > 0 {
      StoredPrefixIs(keys[1..], stored, h - 1);
      assert keys[..h] == [keys[0]] + keys[1..][..h - 1];
    }
  }

  /** The keys of a request: a prefix of the pool, then keys of its own. */
  function Request(pool: seq<Key>, cut: nat, suffix: seq<Key>): (keys: seq<Key>) {
    pool[..if cut < |pool| then cut else |pool|] + suffix
  }

  /** What the first i requests of a step load: the stored prefix of each, where it has one. */
  ghost function StepLoads(pool: seq<Key>, cuts: seq<nat>, suffixes: seq<seq<Key>>, stored: set<Key>,
                           i: nat): seq<seq<Key>>
    requires i <= |cuts| == |suffixes|
  {
    if i == 0 then [] else
      var hits := StoredPrefix(Request(pool, cuts[i - 1], suffixes[i - 1]), stored);
      StepLoads(pool, cuts, suffixes, stored, i - 1) + if hits == [] then [] else [hits]
  }

  /** The length of the stored prefix. */
  method Lookup(keys: seq<Key>, stored: set<Key>) returns (h: nat)
    ensures h <= |keys| && keys[..h] == StoredPrefix(keys, stored)
    ensures forall i :: 0 <= i < h ==> keys[i] in stored
  {
    h := 0;
    while h < |keys| && keys[h] in stored
      invariant h <= |keys| && forall i :: 0 <= i < h ==> keys[i] in stored
    {
      h := h + 1;
    }
    StoredPrefixIs(keys, stored, h);
  }

  /** Keys never stored before are not in the stored prefix, so no load is longer than the pool. */
  lemma StoredPart(pool: seq<Key>, cut: nat, suffix: seq<Key>, stored: set<Key>, h: nat)
    requires h <= |Request(pool, cut, suffix)| && forall i :: 0 <= i < h ==> Request(pool, cut, suffix)[i] in stored
    requires forall k :: k in suffix ==> k !in stored
    ensures h <= |pool| && Request(pool, cut, suffix)[..h] == pool[..h]
  {
    var prefix := pool[..if cut < |pool| then cut else |pool|];
    if suffix != [] {
      assert (prefix + suffix)[|prefix|] == suffix[0];
    }
  }

  /** The hit prefixes of a step's requests, in order. Each request's keys of its own were never
      stored before, so every load is a prefix of the pool. */
  method Hits(pool: seq<Key>, cuts: seq<nat>, suffixes: seq<seq<Key>>, stored: set<Key>) returns (loads: seq<seq<Key>>)
    requires |cuts| == |suffixes|
    requires forall i, k :: 0 <= i < |suffixes| && k in suffixes[i] ==> k !in stored
    ensures loads == StepLoads(pool, cuts, suffixes, stored, |cuts|)
    ensures |Joined<Key>(loads)| <= |cuts| * |pool|
    ensures forall i :: 0 <= i < |loads| ==> loads[i] != [] && loads[i] <= pool
  {
    loads := [];
    for i := 0 to |cuts|
      invariant loads == StepLoads(pool, cuts, suffixes, stored, i)
      invariant |Joined<Key>(loads)| <= Repeated(i, |pool|)
      invariant forall k :: 0 <= k < |loads| ==> loads[k] != [] && loads[k] <= pool
    {
      var request := Request(pool, cuts[i], suffixes[i]);
      var h := Lookup(request, stored);
      StoredPart(pool, cuts[i], suffixes[i], stored, h);
      if h > 0 {
        JoinedNext<Key>(loads, request[..h]);
        loads := loads + [request[..h]];
      }
    }
    RepeatedIs(|cuts|, |pool|);
  }

  /** n added up i times. */
  ghost function Repeated(i: nat, n: nat): nat {
    if i == 0 then 0 else Repeated(i - 1, n) + n
  }

  lemma {:induction false} RepeatedIs(i: nat, n: nat)
    ensures Repeated(i, n) == i * n
  {
    if i > 0 {
      RepeatedIs(i - 1, n);
      Distribute(i - 1, 1, n);
    }
  }

  /** One step's loads: the hit prefixes of its requests, and for each as many blocks as it has
      keys, all of them distinct. */
  method LoadStep(p: Params, ring: Ring, pool: seq<Key>, cuts: seq<nat>, suffixes: seq<seq<Key>>, stored: set<Key>)
    returns (loads: seq<seq<Key>>, ids: seq<seq<nat>>)
    requires p.requestsPerStep > 0 && ring.Valid() && ring.size == RingSize(p)
    requires |pool| == PoolSize(p) && |cuts| == |suffixes| == p.requestsPerStep
    requires forall i, k :: 0 <= i < |suffixes| && k in suffixes[i] ==> k !in stored
    modifies ring
    ensures loads == StepLoads(pool, cuts, suffixes, stored, |cuts|)
    ensures |ids| == |loads| && forall i :: 0 <= i < |loads| ==> |ids[i]| == |loads[i]|
    ensures NoDup(Joined<nat>(ids)) && forall i :: 0 <= i < |Joined<nat>(ids)| ==> Joined<nat>(ids)[i] < ring.size
  {
    LoadsFit(p, |pool|);
    ghost var size, c := ring.size, ring.cursor;
    loads := Hits(pool, cuts, suffixes, stored);
    ids := SubmitLoads(ring, loads);
    WindowDistinct(size, c, |Joined<Key>(loads)|);
  }

  // --- The saves of a step, outstanding together until the next step ---

  /** What the first i requests of a step save: of each, the keys after its stored prefix, if any. */
  ghost function StepSaves(pool: seq<Key>, cuts: seq<nat>, suffixes: seq<seq<Key>>, stored: set<Key>,
                           i: nat): seq<seq<Key>>
    requires i <= |cuts| == |suffixes|
  {
    if i == 0 then [] else
      var request := Request(pool, cuts[i - 1], suffixes[i - 1]);
      var rest := request[StoredLength(request, stored)..];
      StepSaves(pool, cuts, suffixes, stored, i - 1) + if rest == [] then [] else [rest]
  }

  ghost function StoredLength(keys: seq<Key>, stored: set<Key>): (n: nat)
    ensures n <= |keys|
  {
    StoredPrefixPart(keys, stored);
    |StoredPrefix(keys, stored)|
  }

  lemma {:induction false} StoredPrefixPart(keys: seq<Key>, stored: set<Key>)
    ensures StoredPrefix(keys, stored) <= keys
  {
    if keys != [] && keys[0] in stored {
      StoredPrefixPart(keys[1..], stored);
    }
  }

  /** With the whole pool stored, and none of the requests' own keys, each saves its own keys. */
  lemma {:induction false} SavesOwnKeys(pool: seq<Key>, cuts: seq<nat>, suffixes: seq<seq<Key>>, stored: set<Key>,
                                        i: nat)
    requires i <= |cuts| == |suffixes| && forall k :: k in pool ==> k in stored
    requires forall j, k :: 0 <= j < |suffixes| && k in suffixes[j] ==> k !in stored
    requires forall j :: 0 <= j < |suffixes| ==> suffixes[j] != []
    ensures StepSaves(pool, cuts, suffixes, stored, i) == suffixes[..i]
  {
    if i > 0 {
      SavesOwnKeys(pool, cuts, suffixes, stored, i - 1);
      var cut := if cuts[i - 1] < |pool| then cuts[i - 1] else |pool|;
      var request := Request(pool, cuts[i - 1], suffixes[i - 1]);
      assert forall j :: 0 <= j < cut ==> request[j] == pool[j];
      assert request[cut] == suffixes[i - 1][0];
      StoredPrefixIs(request, stored, cut);
      assert request[cut..] == suffixes[i - 1];
      assert suffixes[..i] == suffixes[..i - 1] + [suffixes[i - 1]];
    }
  }

  method Rests(pool: seq<Key>, cuts: seq<nat>, suffixes: seq<seq<Key>>, stored: set<Key>) returns (saves: seq<seq<Key>>)
    requires |cuts| == |suffixes|
    ensures saves == StepSaves(pool, cuts, suffixes, stored, |cuts|)
  {
    saves := [];
    for i := 0 to |cuts|
      invariant saves == StepSaves(pool, cuts, suffixes, stored, i)
    {
      var request := Request(pool, cuts[i], suffixes[i]);
      var h := Lookup(request, stored);
      if h < |request| {
        saves := saves + [request[h..]];
      }
    }
  }

  /** Keys a request brings of its own. */
  function SuffixSize(p: Params): (r: nat)
    requires p.requestsPerStep > 0
    ensures 0 < r <= KeysPerRequest(p)
  {
    KeysPerRequest(p) - KeysPerRequest(p) / 2
  }

  lemma {:induction false} JoinedAlike(parts: seq<seq<Key>>, n: nat)
    requires forall i :: 0 <= i < |parts| ==> |parts[i]| == n
    ensures |Joined<Key>(parts)| == |parts| * n
  {
    if parts != [] {
      JoinedAlike(parts[1..], n);
      Distribute(|parts| - 1, 1, n);
    }
  }

  /** One step's saves: of each request what follows its stored prefix, and for each as many blocks
      as it has keys. Together they are distinct exactly if they are no more than the ring has. With
      the pool stored, each request saves its own keys, and they always are. */
  method SaveStep(p: Params, ring: Ring, pool: seq<Key>, cuts: seq<nat>, suffixes: seq<seq<Key>>, stored: set<Key>)
    returns (saves: seq<seq<Key>>, ids: seq<seq<nat>>)
    requires p.requestsPerStep > 0 && ring.Valid() && ring.size == RingSize(p)
    requires |cuts| == |suffixes| == p.requestsPerStep
    requires forall i :: 0 <= i < |suffixes| ==> |suffixes[i]| == SuffixSize(p)
    requires forall i, k :: 0 <= i < |suffixes| && k in suffixes[i] ==> k !in stored
    modifies ring
    ensures saves == StepSaves(pool, cuts, suffixes, stored, |cuts|)
    ensures |ids| == |saves| && forall i :: 0 <= i < |saves| ==> |ids[i]| == |saves[i]|
    ensures forall i :: 0 <= i < |Joined<nat>(ids)| ==> Joined<nat>(ids)[i] < ring.size
    ensures NoDup(Joined<nat>(ids)) <==> |Joined<Key>(saves)| <= ring.size
    ensures (forall k :: k in pool ==> k in stored) ==> saves == suffixes && NoDup(Joined<nat>(ids))
  {
    ghost var size, c := ring.size, ring.cursor;
    saves := Rests(pool, cuts, suffixes, stored);
    ids := SubmitLoads(ring, saves);
    WindowDistinct(size, c, |Joined<Key>(saves)|);
    if forall k :: k in pool ==> k in stored {
      SavesOwnKeys(pool, cuts, suffixes, stored, |cuts|);
      assert suffixes[..|cuts|] == suffixes;
      SavesFit(p, suffixes);
    }
  }

  lemma SavesFit(p: Params, suffixes: seq<seq<Key>>)
    requires p.requestsPerStep > 0 && |suffixes| == p.requestsPerStep
    requires forall i :: 0 <= i < |suffixes| ==> |suffixes[i]| == SuffixSize(p)
    ensures |Joined<Key>(suffixes)| <= RingSize(p)
  {
    JoinedAlike(suffixes, SuffixSize(p));
    TimesMore(p.requestsPerStep, SuffixSize(p), 2 * KeysPerRequest(p));
    Regroup(p.requestsPerStep, KeysPerRequest(p));
  }

  /** Without the pool stored a step's saves can be more than the ring has: one request for eight
      keys of the pool and two of its own, and a ring of nine. */
  lemma SavesOverrun(pool: seq<Key>, suffix: seq<Key>)
    requires |pool| == 8 && |suffix| == 2
    ensures var p := Params(4, 1, 0, 0, 0, 0, 1);
            && |pool| == PoolSize(p) && |suffix| == SuffixSize(p) && RingSize(p) == 9
            && |Joined<Key>(StepSaves(pool, [8], [suffix], {}, 1))| == 10
  {
    var request := Request(pool, 8, suffix);
    assert StoredPrefix(request, {}) == [];
    assert request[0..] == request;
    assert StepSaves(pool, [8], [suffix], {}, 0) == [];
    var saves := [request];
    assert StepSaves(pool, [8], [suffix], {}, 1) == saves;
    JoinedNext<Key>([], request);
    assert [] + saves == saves;
  }

  lemma PoolSmall(numBlocks: nat, kpr: nat)
    ensures Sizing.PrefixPool(numBlocks, kpr) <= 2 * kpr
  {
  }

  lemma {:induction false} TimesMore(a: nat, b: nat, c: nat)
    requires b <= c
    ensures a * b <= a * c
  {
    if a > 0 {
      TimesMore(a - 1, b, c);
      Distribute(a - 1, 1, b);
      Distribute(a - 1, 1, c);
    }
  }

  /** The ring holds a whole pool for every request of a step. */
  lemma LoadsFit(p: Params, pool: nat)
    requires p.requestsPerStep > 0 && pool == PoolSize(p)
    ensures p.requestsPerStep * pool <= RingSize(p)
  {
    var kpr := KeysPerRequest(p);
    PoolSmall(p.numBlocks, kpr);
    TimesMore(p.requestsPerStep, pool, 2 * kpr);
    Regroup(p.requestsPerStep, kpr);
  }

  lemma Regroup(a: nat, b: nat)
    ensures a * (2 * b) == 2 * a * b
  {
  }
}
