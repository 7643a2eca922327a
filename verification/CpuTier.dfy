/** The cputier step loop's loads: a load job whose lookups are not all answered is parked
    over ticks, and looked up again before its blocks are loaded. */
module CpuTiers {
  import opened Common
  import opened LoadWindows
  import StepLoops

  /** A lookup's answer: Later stands for RETRY and HIT_PENDING. */
  datatype Answer = Hit | Miss | Later
  datatype Status = Unknown | Found | Absent

  /** A load job that holds a slot but has no transfer yet. */
  datatype Parked = Parked(keys: seq<Key>, slot: nat, tag: nat, status: seq<Status>, waited: bool)
  /** A load job being transferred. */
  datatype Flight = Flight(keys: seq<Key>, slot: nat, tag: nat)

  datatype Tier = Tier(free: seq<nat>, n: int, parked: seq<Parked>, pending: map<nat, Flight>, nextId: nat,
                       loaded: nat, missed: nat, released: set<nat>)

  ghost predicate JobOk(job: Parked) {
    |job.status| == |job.keys| && (!job.waited ==> forall i :: 0 <= i < |job.status| ==> job.status[i] == Unknown)
  }

  // --- Bags of what jobs hold ---

  datatype Facet = SlotOf | TagOf | SizeOf

  /** One facet of a job: its slot, its tag, or its size (as many zeros as it has keys). */
  ghost function Share(f: Facet, keys: seq<Key>, slot: nat, tag: nat): multiset<nat> {
    match f
    case SlotOf => multiset{slot}
    case TagOf => multiset{tag}
    case SizeOf => Zeros(|keys|)
  }

  ghost function Zeros(n: nat): multiset<nat> {
    multiset{}[0 := n]
  }

  ghost function Bag(f: Facet, jobs: seq<Parked>): multiset<nat> {
    if jobs == [] then multiset{}
    else Share(f, jobs[0].keys, jobs[0].slot, jobs[0].tag) + Bag(f, jobs[1..])
  }

  lemma {:induction false} BagAppend(f: Facet, jobs: seq<Parked>, job: Parked)
    ensures Bag(f, jobs + [job]) == Bag(f, jobs) + Share(f, job.keys, job.slot, job.tag)
  {
    if jobs != [] {
      assert (jobs + [job])[1..] == jobs[1..] + [job];
      BagAppend(f, jobs[1..], job);
    }
  }

  ghost function Sum(shares: map<nat, multiset<nat>>): multiset<nat>
    decreases |shares|
  {
    if shares == map[] then multiset{} else
      var j :| j in shares;
      shares[j] + Sum(shares - {j})
  }

  lemma {:induction false} SumRemove(shares: map<nat, multiset<nat>>, j: nat)
    requires j in shares
    ensures Sum(shares) == shares[j] + Sum(shares - {j})
    decreases |shares|
  {
    var i: nat :| i in shares && Sum(shares) == shares[i] + Sum(shares - {i});
    if i != j {
      SumRemove(shares - {i}, j);
      SumRemove(shares - {j}, i);
      assert shares - {i} - {j} == shares - {j} - {i};
      Swap(shares[i], shares[j], Sum(shares - {i} - {j}));
    }
  }

  ghost function Shares(f: Facet, pending: map<nat, Flight>): map<nat, multiset<nat>> {
    map j | j in pending :: Share(f, pending[j].keys, pending[j].slot, pending[j].tag)
  }

  ghost function Flights(f: Facet, pending: map<nat, Flight>): multiset<nat> {
    Sum(Shares(f, pending))
  }

  lemma SharesRemove(f: Facet, pending: map<nat, Flight>, j: nat)
    ensures Shares(f, pending - {j}) == Shares(f, pending) - {j}
  {
    forall i | i in pending && i != j ensures Shares(f, pending - {j})[i] == (Shares(f, pending) - {j})[i] {
    }
  }

  lemma FlightsRemove(f: Facet, pending: map<nat, Flight>, j: nat)
    requires j in pending
    ensures Flights(f, pending) ==
              Share(f, pending[j].keys, pending[j].slot, pending[j].tag) + Flights(f, pending - {j})
  {
    SharesRemove(f, pending, j);
    SumRemove(Shares(f, pending), j);
  }

  lemma FlightsInsert(f: Facet, pending: map<nat, Flight>, j: nat, x: Flight)
    requires j !in pending
    ensures Flights(f, pending[j := x]) == Share(f, x.keys, x.slot, x.tag) + Flights(f, pending)
  {
    PutBack(pending, j, x);
    FlightsRemove(f, pending[j := x], j);
  }

  lemma PutBack(pending: map<nat, Flight>, j: nat, x: Flight)
    requires j !in pending
    ensures pending[j := x] - {j} == pending
  {
  }

  // --- The invariant: one equation per facet ---

  /** What no job holds: free slots, released tags, loaded and missed keys. */
  ghost function Idle(f: Facet, t: Tier): multiset<nat> {
    match f
    case SlotOf => multiset(t.free)
    case TagOf => multiset(t.released)
    case SizeOf => Zeros(t.loaded + t.missed)
  }

  /** All there is: the slots, the busy units, the keys of all jobs started. */
  ghost function Total(f: Facet, slots: nat, busy: set<nat>, started: nat): multiset<nat> {
    match f
    case SlotOf => multiset(Range(slots))
    case TagOf => multiset(busy)
    case SizeOf => Zeros(started)
  }

  /** Everything is idle, with a job taken off the parked list, with a parked job, or with one
      being transferred, and in one place only. */
  ghost predicate EvenOk(f: Facet, slots: nat, t: Tier, extra: seq<Parked>, busy: set<nat>, started: nat) {
    Idle(f, t) + Bag(f, extra) + Bag(f, t.parked) + Flights(f, t.pending) == Total(f, slots, busy, started)
  }

  /** EvenOk, carried whole. */
  ghost predicate Even(f: Facet, slots: nat, t: Tier, extra: seq<Parked>, busy: set<nat>, started: nat) {
    forall k {:trigger Open(f, k)} :: Open(f, k) ==> EvenOk(f, slots, t, extra, busy, started)
  }

  ghost predicate AllEven(slots: nat, t: Tier, extra: seq<Parked>, busy: set<nat>, started: nat) {
    forall k {:trigger Open(t.free, k)} :: Open(t.free, k) ==> forall f :: Even(f, slots, t, extra, busy, started)
  }

  ghost predicate TierOk(slots: nat, t: Tier, extra: seq<Parked>, busy: set<nat>, started: nat) {
    && AllEven(slots, t, extra, busy, started)
    && t.n == |extra| + |t.parked| + |t.pending|
    && (forall j :: j in t.pending ==> j < t.nextId)
    && (forall i :: 0 <= i < |t.parked| ==> JobOk(t.parked[i]))
  }

  /** TierOk, carried whole; `extra` are the jobs taken off the parked list for a retry. */
  ghost predicate Sound(slots: nat, t: Tier, extra: seq<Parked>, busy: set<nat>, started: nat) {
    forall k {:trigger Open(t, k)} :: Open(t, k) ==> TierOk(slots, t, extra, busy, started)
  }

  lemma Unseal(slots: nat, t: Tier, extra: seq<Parked>, busy: set<nat>, started: nat)
    requires Sound(slots, t, extra, busy, started)
    ensures TierOk(slots, t, extra, busy, started)
    ensures forall f :: Even(f, slots, t, extra, busy, started)
  {
    assert Open(t, 0) && Open(t.free, 0);
  }

  // --- Moving shares about ---

  lemma MoveExtra(i: multiset<nat>, x: multiset<nat>, e: multiset<nat>, p: multiset<nat>, fl: multiset<nat>,
                  all: multiset<nat>)
    requires i + (x + e) + p + fl == all
    ensures i + e + (p + x) + fl == all && (i + x) + e + p + fl == all
  {
  }

  lemma SplitExtra(i: multiset<nat>, y: multiset<nat>, z: multiset<nat>, e: multiset<nat>, p: multiset<nat>,
                   fl: multiset<nat>, all: multiset<nat>)
    requires i + (y + z + e) + p + fl == all
    ensures (i + z) + e + p + (y + fl) == all
  {
  }

  lemma MoveFlight(i: multiset<nat>, x: multiset<nat>, e: multiset<nat>, p: multiset<nat>, fl: multiset<nat>,
                   all: multiset<nat>)
    requires i + e + p + (x + fl) == all
    ensures (i + x) + e + p + fl == all && x <= all && i + e + p + fl == all - x
  {
  }

  lemma MoveIdle(i: multiset<nat>, x: multiset<nat>, p: multiset<nat>, fl: multiset<nat>, all: multiset<nat>)
    ensures (x + i) + multiset{} + p + fl == all ==> i + x + p + fl == all
    ensures i + multiset{} + p + fl == all ==> i + x + p + fl == all + x
  {
  }

  /** A job's share is its hits' share and what is known to be missing. */
  lemma SplitShare(f: Facet, keys: seq<Key>, hits: seq<Key>, slot: nat, tag: nat) returns (missing: multiset<nat>)
    requires |hits| <= |keys|
    ensures Share(f, keys, slot, tag) == Share(f, hits, slot, tag) + missing
    ensures missing == if f == SizeOf then Zeros(|keys| - |hits|) else multiset{}
  {
    missing := if f == SizeOf then Zeros(|keys| - |hits|) else multiset{};
    match f {
      case SlotOf =>
      case TagOf =>
      case SizeOf => assert Zeros(|keys|) == Zeros(|hits|) + missing;
    }
  }

  // --- Steps ---

  function Taken(t: Tier): (t': Tier)
    requires t.free != []
  {
    t.(free := t.free[1..], n := t.n + 1)
  }

  lemma TakenEven(f: Facet, slots: nat, t: Tier, busy: set<nat>, started: nat, job: Parked)
    requires Even(f, slots, t, [], busy, started) && t.free != [] && job.slot == t.free[0] && job.tag !in busy
    ensures Even(f, slots, Taken(t), [job], busy + {job.tag}, started + |job.keys|)
  {
    assert Open(f, 0);
    var x, idle := Share(f, job.keys, job.slot, job.tag), Idle(f, Taken(t));
    var all, all' := Total(f, slots, busy, started), Total(f, slots, busy + {job.tag}, started + |job.keys|);
    BagOne(f, job);
    MoveIdle(idle, x, Bag(f, t.parked), Flights(f, t.pending), all);
    TakenParts(f, slots, t, busy, started, job);
  }

  /** A started job's share comes out of what is idle, or is new. */
  lemma TakenParts(f: Facet, slots: nat, t: Tier, busy: set<nat>, started: nat, job: Parked)
    requires t.free != [] && job.slot == t.free[0] && job.tag !in busy
    ensures var x, idle := Share(f, job.keys, job.slot, job.tag), Idle(f, Taken(t));
            var all, all' := Total(f, slots, busy, started), Total(f, slots, busy + {job.tag}, started + |job.keys|);
            if f == SlotOf then Idle(f, t) == x + idle && all' == all else Idle(f, t) == idle && all' == all + x
  {
    if f == SlotOf {
      FreeTaken(t.free);
    } else {
      TotalGrows(f, slots, busy, started, job);
    }
  }

  lemma BagOne(f: Facet, job: Parked)
    ensures Bag(f, [job]) == Share(f, job.keys, job.slot, job.tag)
  {
  }

  lemma FreeTaken(free: seq<nat>)
    requires free != []
    ensures multiset(free) == multiset{free[0]} + multiset(free[1..])
  {
    assert free == [free[0]] + free[1..];
  }

  lemma TotalGrows(f: Facet, slots: nat, busy: set<nat>, started: nat, job: Parked)
    requires job.tag !in busy
    ensures Total(f, slots, busy + {job.tag}, started + |job.keys|) ==
            Total(f, slots, busy, started) + if f == SlotOf then multiset{} else Share(f, job.keys, job.slot, job.tag)
  {
    if f == TagOf {
      assert multiset(busy + {job.tag}) == multiset(busy) + multiset{job.tag};
    } else if f == SizeOf {
      assert Zeros(started + |job.keys|) == Zeros(started) + Zeros(|job.keys|);
    }
  }

  /** A job with nothing looked up yet. */
  function NewJob(keys: seq<Key>, slot: nat, tag: nat): (job: Parked)
    ensures JobOk(job)
  {
    Parked(keys, slot, tag, seq(|keys|, _ => Unknown), false)
  }

  /** A job starts: it takes the first free slot. */
  lemma TakenSound(slots: nat, t: Tier, busy: set<nat>, started: nat, job: Parked, busy': set<nat>, started': nat)
    requires Sound(slots, t, [], busy, started) && t.free != [] && job.slot == t.free[0] && job.tag !in busy
    requires busy' == busy + {job.tag} && started' == started + |job.keys|
    ensures Sound(slots, Taken(t), [job] + [], busy', started')
  {
    assert [job] + [] == [job];
    Unseal(slots, t, [], busy, started);
    forall f ensures Even(f, slots, Taken(t), [job], busy', started') {
      assert Even(f, slots, t, [], busy, started);
      TakenEven(f, slots, t, busy, started, job);
    }
  }

  function Reparked(t: Tier, job: Parked): (t': Tier) {
    t.(parked := t.parked + [job])
  }

  lemma ReparkedEven(f: Facet, slots: nat, t: Tier, extra: seq<Parked>, busy: set<nat>, started: nat, job: Parked)
    requires Even(f, slots, t, extra, busy, started) && extra != []
    requires job.keys == extra[0].keys && job.slot == extra[0].slot && job.tag == extra[0].tag
    ensures Even(f, slots, Reparked(t, job), extra[1..], busy, started)
  {
    assert Open(f, 0);
    BagAppend(f, t.parked, job);
    MoveExtra(Idle(f, t), Share(f, job.keys, job.slot, job.tag), Bag(f, extra[1..]), Bag(f, t.parked),
              Flights(f, t.pending), Total(f, slots, busy, started));
  }

  lemma ReparkedSound(slots: nat, t: Tier, extra: seq<Parked>, busy: set<nat>, started: nat, job: Parked)
    requires Sound(slots, t, extra, busy, started) && extra != [] && JobOk(job)
    requires job.keys == extra[0].keys && job.slot == extra[0].slot && job.tag == extra[0].tag
    ensures Sound(slots, Reparked(t, job), extra[1..], busy, started)
  {
    Unseal(slots, t, extra, busy, started);
    forall f ensures Even(f, slots, Reparked(t, job), extra[1..], busy, started) {
      ReparkedEven(f, slots, t, extra, busy, started, job);
    }
  }

  /** A job none of whose keys is there ends without a transfer. */
  function Released(t: Tier, job: Parked): (t': Tier) {
    t.(missed := t.missed + |job.keys|, free := t.free + [job.slot], n := t.n - 1, released := t.released + {job.tag})
  }

  /** A waiting job's tag has not been released. */
  lemma NotReleased(slots: nat, t: Tier, extra: seq<Parked>, busy: set<nat>, started: nat)
    requires Even(TagOf, slots, t, extra, busy, started) && extra != []
    ensures extra[0].tag !in t.released
  {
    assert Open(TagOf, 0);
    assert multiset(busy)[extra[0].tag] <= 1;
    assert Bag(TagOf, extra)[extra[0].tag] >= 1;
  }

  lemma ReleasedEven(f: Facet, slots: nat, t: Tier, extra: seq<Parked>, busy: set<nat>, started: nat)
    requires Even(f, slots, t, extra, busy, started) && extra != [] && (f == TagOf ==> extra[0].tag !in t.released)
    ensures Even(f, slots, Released(t, extra[0]), extra[1..], busy, started)
  {
    assert Open(f, 0);
    var job := extra[0];
    var x := Share(f, job.keys, job.slot, job.tag);
    assert Idle(f, Released(t, job)) == Idle(f, t) + x by {
      if f == TagOf {
        assert multiset(t.released + {job.tag}) == multiset(t.released) + x;
      }
    }
    MoveExtra(Idle(f, t), x, Bag(f, extra[1..]), Bag(f, t.parked), Flights(f, t.pending),
              Total(f, slots, busy, started));
  }

  lemma ReleasedSound(slots: nat, t: Tier, extra: seq<Parked>, busy: set<nat>, started: nat)
    requires Sound(slots, t, extra, busy, started) && extra != []
    ensures Sound(slots, Released(t, extra[0]), extra[1..], busy, started)
  {
    Unseal(slots, t, extra, busy, started);
    assert Even(TagOf, slots, t, extra, busy, started);
    NotReleased(slots, t, extra, busy, started);
    forall f ensures Even(f, slots, Released(t, extra[0]), extra[1..], busy, started) {
      assert Even(f, slots, t, extra, busy, started);
      ReleasedEven(f, slots, t, extra, busy, started);
    }
  }

  function Submitted(t: Tier, job: Parked, hits: seq<Key>): (t': Tier)
    requires |hits| <= |job.keys|
  {
    t.(missed := t.missed + |job.keys| - |hits|, pending := t.pending[t.nextId := Flight(hits, job.slot, job.tag)],
       nextId := t.nextId + 1)
  }

  lemma IdleSubmitted(f: Facet, t: Tier, job: Parked, hits: seq<Key>)
    requires |hits| <= |job.keys|
    ensures Idle(f, Submitted(t, job, hits)) ==
            Idle(f, t) + if f == SizeOf then Zeros(|job.keys| - |hits|) else multiset{}
  {
    match f {
      case SlotOf =>
      case TagOf =>
      case SizeOf =>
        assert Zeros(t.loaded + t.missed + |job.keys| - |hits|) ==
                 Zeros(t.loaded + t.missed) + Zeros(|job.keys| - |hits|);
    }
  }

  lemma SubmittedEven(f: Facet, slots: nat, t: Tier, extra: seq<Parked>, busy: set<nat>, started: nat, hits: seq<Key>)
    requires Even(f, slots, t, extra, busy, started) && extra != [] && |hits| <= |extra[0].keys|
    requires t.nextId !in t.pending
    ensures Even(f, slots, Submitted(t, extra[0], hits), extra[1..], busy, started)
  {
    assert Open(f, 0);
    var job := extra[0];
    var y := Share(f, hits, job.slot, job.tag);
    var z := SplitShare(f, job.keys, hits, job.slot, job.tag);
    FlightsInsert(f, t.pending, t.nextId, Flight(hits, job.slot, job.tag));
    IdleSubmitted(f, t, job, hits);
    SplitExtra(Idle(f, t), y, z, Bag(f, extra[1..]), Bag(f, t.parked), Flights(f, t.pending),
               Total(f, slots, busy, started));
  }

  lemma SubmittedSound(slots: nat, t: Tier, extra: seq<Parked>, busy: set<nat>, started: nat, hits: seq<Key>)
    requires Sound(slots, t, extra, busy, started) && extra != [] && |hits| <= |extra[0].keys|
    ensures Sound(slots, Submitted(t, extra[0], hits), extra[1..], busy, started)
  {
    Unseal(slots, t, extra, busy, started);
    forall f ensures Even(f, slots, Submitted(t, extra[0], hits), extra[1..], busy, started) {
      assert Even(f, slots, t, extra, busy, started);
      SubmittedEven(f, slots, t, extra, busy, started, hits);
    }
  }

  /** A finished transfer gives its slot back. */
  function Landed(t: Tier, j: nat): (t': Tier)
    requires j in t.pending
  {
    t.(pending := t.pending - {j}, free := t.free + [t.pending[j].slot], n := t.n - 1,
       loaded := t.loaded + |t.pending[j].keys|)
  }

  lemma LandedEven(f: Facet, slots: nat, t: Tier, busy: set<nat>, started: nat, j: nat)
    requires Even(f, slots, t, [], busy, started) && j in t.pending
    ensures Even(f, slots, Landed(t, j), [], busy - {t.pending[j].tag}, started)
  {
    assert Open(f, 0);
    var x := t.pending[j];
    var share := Share(f, x.keys, x.slot, x.tag);
    FlightsRemove(f, t.pending, j);
    MoveFlight(Idle(f, t), share, Bag(f, []), Bag(f, t.parked), Flights(f, t.pending - {j}),
               Total(f, slots, busy, started));
    LandedParts(f, slots, t, busy, started, j);
  }

  lemma LandedParts(f: Facet, slots: nat, t: Tier, busy: set<nat>, started: nat, j: nat)
    requires j in t.pending
    ensures var x := t.pending[j];
            var share := Share(f, x.keys, x.slot, x.tag);
            if f == TagOf
            then Idle(f, Landed(t, j)) == Idle(f, t) &&
                 (share <= Total(f, slots, busy, started) ==>
                    Total(f, slots, busy - {x.tag}, started) == Total(f, slots, busy, started) - share)
            else Idle(f, Landed(t, j)) == Idle(f, t) + share
  {
    var x := t.pending[j];
    match f {
      case SlotOf =>
      case TagOf =>
        assert x.tag in multiset{x.tag};
        assert x.tag in busy ==> multiset(busy - {x.tag}) == multiset(busy) - multiset{x.tag};
      case SizeOf =>
        assert Zeros(t.loaded + |x.keys| + t.missed) == Zeros(t.loaded + t.missed) + Zeros(|x.keys|);
    }
  }

  lemma LandedSound(slots: nat, t: Tier, busy: set<nat>, started: nat, j: nat)
    requires Sound(slots, t, [], busy, started) && j in t.pending
    ensures Sound(slots, Landed(t, j), [], busy - {t.pending[j].tag}, started)
  {
    Unseal(slots, t, [], busy, started);
    forall f ensures Even(f, slots, Landed(t, j), [], busy - {t.pending[j].tag}, started) {
      assert Even(f, slots, t, [], busy, started);
      LandedEven(f, slots, t, busy, started, j);
    }
    assert (t.pending - {j}).Keys == t.pending.Keys - {j};
  }

  // --- Lookups ---

  /** The keys found present, in order. */
  function HitsOf(keys: seq<Key>, status: seq<Status>): (hits: seq<Key>)
    requires |status| == |keys|
    ensures |hits| <= |keys|
    ensures forall k :: k in hits <==> exists i :: 0 <= i < |keys| && status[i] == Found && keys[i] == k
  {
    if keys == [] then [] else
      var rest := HitsOf(keys[..|keys| - 1], status[..|keys| - 1]);
      var last := |keys| - 1;
      if status[last] == Found then rest + [keys[last]] else rest
  }

  /** Every key found is in the CPU tier now. */
  ghost predicate AllThere(keys: seq<Key>, status: seq<Status>, resident: set<Key>)
    requires |status| == |keys|
  {
    forall i :: 0 <= i < |keys| && status[i] == Found ==> keys[i] in resident
  }

  /** What an answer makes of a key. */
  function After(a: Answer): (r: Status) {
    match a
    case Hit => Found
    case Miss => Absent
    case Later => Unknown
  }

  /** The status of each key after these answers, none for a key not asked about. */
  ghost function Answers(status: seq<Status>, said: seq<Option<Answer>>): seq<Status>
    requires |said| == |status|
  {
    seq(|said|, i requires 0 <= i < |said| => if said[i].Some? then After(said[i].value) else status[i])
  }

  /** The lookups made for the first keys, in order, and their answers. */
  ghost function Said(keys: seq<Key>, said: seq<Option<Answer>>): seq<(Key, Answer)>
    requires |said| <= |keys|
  {
    if said == [] then [] else
      var n := |said| - 1;
      Said(keys, said[..n]) + if said[n].Some? then [(keys[n], said[n].value)] else []
  }

  lemma SaidNext(keys: seq<Key>, said: seq<Option<Answer>>, x: Option<Answer>)
    requires |said| < |keys|
    ensures Said(keys, said + [x]) == Said(keys, said) + if x.Some? then [(keys[|said|], x.value)] else []
  {
    assert (said + [x])[..|said|] == said;
  }

  /** Exactly the keys of this status were asked about. */
  ghost predicate AskedOf(status: seq<Status>, which: Status, said: seq<Option<Answer>>) {
    |said| == |status| && forall i :: 0 <= i < |said| ==> (said[i].Some? <==> status[i] == which)
  }

  /** Some answer was put off. */
  ghost predicate PutOff(said: seq<Option<Answer>>) {
    Some(Later) in said
  }

  /** Nothing was asked. */
  ghost function Silence(n: nat): (said: seq<Option<Answer>>)
    ensures |said| == n
  {
    seq(n, _ => None)
  }

  lemma {:induction false} SaidNothing(keys: seq<Key>, n: nat)
    requires n <= |keys|
    ensures Said(keys, Silence(n)) == []
  {
    if n > 0 {
      assert Silence(n)[..n - 1] == Silence(n - 1);
      SaidNothing(keys, n - 1);
    }
  }

  lemma NotAsked(status: seq<Status>)
    ensures Answers(status, Silence(|status|)) == status && !PutOff(Silence(|status|))
  {
  }

  /** What a pass makes of a job, given the status of its keys after it: parked while an answer is
      put off, ended if no key was found, else submitted with exactly the keys found. */
  ghost function PassEnd(t: Tier, job: Parked, later: bool, status: seq<Status>): Tier
    requires |status| == |job.keys|
  {
    if later then Reparked(t, job.(status := status, waited := true))
    else if HitsOf(job.keys, status) == [] then Released(t, job)
    else Submitted(t, job, HitsOf(job.keys, status))
  }

  ghost predicate PassOk(t: Tier, job: Parked, first: seq<Option<Answer>>, again: seq<Option<Answer>>,
                         resident: set<Key>, t': Tier) {
    && |job.status| == |job.keys| && AskedOf(job.status, Unknown, first)
    && var status, waited := Answers(job.status, first), job.waited && !PutOff(first);
       && (if waited then AskedOf(status, Found, again) else again == Silence(|job.keys|))
       && var later, last := PutOff(first) || PutOff(again), Answers(status, again);
          && t' == PassEnd(t, job, later, last)
          && (!later ==> AllThere(job.keys, last, resident))
  }

  /** One pass over a job: every key not resolved is looked up once; if then all are, and the job
      had waited, every key found is looked up once more; the answers decide what becomes of the
      job, and every key it then loads is in the tier. Carried whole. */
  ghost predicate PassDone(t: Tier, job: Parked, first: seq<Option<Answer>>, again: seq<Option<Answer>>,
                           resident: set<Key>, t': Tier) {
    forall k {:trigger Open(job, k)} :: Open(job, k) ==> PassOk(t, job, first, again, resident, t')
  }

  class CpuTierLoop {
    const slots: nat
    const touchFirst: bool
    /** Which calls raise, by number: into the tier's manager, and to the clock when a job is to
        be parked once more. */
    const faults: set<nat>
    var calls: nat
    var tier: Tier
    /** The keys in the CPU tier, the environment's. */
    var resident: set<Key>
    /** Every lookup and its answer. */
    ghost var asked: seq<(Key, Answer)>

    constructor (slots: nat, touchFirst: bool, faults: set<nat>, resident: set<Key>)
      ensures this.slots == slots && this.touchFirst == touchFirst && this.faults == faults && calls == 0
      ensures Sound(slots, tier, [], {}, 0) && asked == []
      ensures tier.parked == [] && tier.pending == map[] && tier.released == {} && tier.loaded == tier.missed == 0
    {
      this.slots, this.touchFirst, this.faults, this.resident := slots, touchFirst, faults, resident;
      tier, calls, asked := Tier(Range(slots), 0, [], map[], 0, 0, 0, {}), 0, [];
      forall f ensures Even(f, slots, Tier(Range(slots), 0, [], map[], 0, 0, 0, {}), [], {}, 0) {
        assert Shares(f, map[]) == map[];
      }
    }

    /** The calls since number n: `fine` says whether none of them raised. */
    ghost predicate Since(n: nat, fine: bool)
      reads this`calls
    {
      n <= calls && StepLoops.CleanSince(fine, n, calls, faults)
    }

    /** One call, after others that did not raise. */
    method Call(ghost n: nat) returns (o: Outcome)
      requires Since(n, true)
      modifies this`calls
      ensures Since(n, o.Ok?) && calls == old(calls) + 1
    {
      StepLoops.CleanNext(true, n, calls, faults);
      o := if calls in faults then Raised else Ok;
      calls := calls + 1;
    }

    /** One lookup. A hit is in the tier. Only an answer that defers the key may come with
        promotions, and so evictions. */
    method Lookup(k: Key, ghost n: nat) returns (o: Outcome, r: Answer)
      requires Since(n, true)
      modifies this`calls, this`resident, this`asked
      ensures Since(n, o.Ok?) && calls == old(calls) + 1
      ensures o.Ok? ==> asked == old(asked) + [(k, r)]
      ensures o.Ok? && r != Later ==> resident == old(resident)
      ensures o.Ok? && r == Hit ==> k in resident
    {
      r := Miss;
      o := Call(n);
      if o.Ok? {
        var later: bool := *;
        var shown: bool := *;
        if later {
          resident := *;
          r := Later;
        } else {
          r := if k in resident && shown then Hit else Miss;
        }
        asked := asked + [(k, r)];
      }
    }

    /** Looks up every key of the given status, in order. */
    method AskAll(keys: seq<Key>, status: seq<Status>, which: Status, ghost n: nat)
      returns (o: Outcome, r: seq<Status>, later: bool, ghost said: seq<Option<Answer>>)
      requires |status| == |keys| && Since(n, true)
      modifies this`calls, this`resident, this`asked
      ensures Since(n, o.Ok?)
      ensures o.Ok? ==> AskedOf(status, which, said) && r == Answers(status, said) && later == PutOff(said)
      ensures o.Ok? ==> asked == old(asked) + Said(keys, said)
      ensures o.Ok? && !later ==> forall i :: 0 <= i < |keys| && said[i] == Some(Hit) ==> keys[i] in resident
    {
      o, r, later, said := Ok, status, false, [];
      for i := 0 to |keys|
        invariant o.Ok? && Since(n, true) && |r| == |keys| && |said| == i
        invariant forall k :: 0 <= k < i ==> (said[k].Some? <==> status[k] == which)
        invariant forall k :: 0 <= k < |r| ==>
                    r[k] == if k < i && said[k].Some? then After(said[k].value) else status[k]
        invariant later == PutOff(said)
        invariant asked == old(asked) + Said(keys, said)
        invariant !later ==> forall k :: 0 <= k < i && said[k] == Some(Hit) ==> keys[k] in resident
      {
        ghost var x := None;
        if status[i] == which {
          var a;
          o, a := Lookup(keys[i], n);
          if o.Raised? {
            return;
          }
          x := Some(a);
          r := r[i := After(a)];
          later := later || a == Later;
        }
        SaidNext(keys, said, x);
        said := said + [x];
      }
    }

    /** Looks up every key not yet resolved. */
    method Resolve(keys: seq<Key>, status: seq<Status>, ghost n: nat)
      returns (o: Outcome, r: seq<Status>, later: bool, ghost said: seq<Option<Answer>>)
      requires |status| == |keys| && Since(n, true)
      modifies this`calls, this`resident, this`asked
      ensures Since(n, o.Ok?)
      ensures o.Ok? ==> AskedOf(status, Unknown, said) && r == Answers(status, said) && later == PutOff(said)
      ensures o.Ok? ==> asked == old(asked) + Said(keys, said)
      ensures o.Ok? && !later ==> forall i :: 0 <= i < |keys| ==> r[i] != Unknown
      ensures o.Ok? && !later ==>
                forall i :: 0 <= i < |keys| && status[i] == Unknown && r[i] == Found ==> keys[i] in resident
    {
      o, r, later, said := AskAll(keys, status, Unknown, n);
    }

    /** Looks up every key found earlier once more; one deferred again is unresolved again. */
    method Revalidate(keys: seq<Key>, status: seq<Status>, ghost n: nat)
      returns (o: Outcome, r: seq<Status>, again: bool, ghost said: seq<Option<Answer>>)
      requires |status| == |keys| && Since(n, true)
      modifies this`calls, this`resident, this`asked
      ensures Since(n, o.Ok?)
      ensures o.Ok? ==> AskedOf(status, Found, said) && r == Answers(status, said) && again == PutOff(said)
      ensures o.Ok? ==> asked == old(asked) + Said(keys, said)
      ensures o.Ok? && !again ==> AllThere(keys, r, resident)
    {
      o, r, again, said := AskAll(keys, status, Found, n);
    }

    /** Pins the keys and builds the load's spec: every key must be in the tier. */
    method PrepareLoad(hits: seq<Key>, ghost n: nat) returns (o: Outcome)
      requires Since(n, true) && forall k :: k in hits ==> k in resident
      modifies this`calls
      ensures Since(n, o.Ok?)
    {
      o := Call(n);
    }

    /** What becomes of a job once its keys have been looked up. */
    method EndPass(job: Parked, status: seq<Status>, later: bool, ghost rest: seq<Parked>, ghost busy: set<nat>,
                   ghost started: nat, ghost n: nat)
      returns (o: Outcome)
      requires Sound(slots, tier, [job] + rest, busy, started) && |status| == |job.keys| && Since(n, true)
      requires !later ==> AllThere(job.keys, status, resident)
      modifies this`calls, this`tier
      ensures Since(n, o.Ok?)
      ensures o.Ok? ==> Sound(slots, tier, rest, busy, started) && tier == PassEnd(old(tier), job, later, status)
    {
      ghost var extra := [job] + rest;
      assert extra[1..] == rest;
      var hits := HitsOf(job.keys, status);
      if later {
        var job' := job.(status := status, waited := true);
        o := Call(n);
        ReparkedSound(slots, tier, extra, busy, started, job');
        tier := Reparked(tier, job');
      } else if hits == [] {
        ReleasedSound(slots, tier, extra, busy, started);
        tier := Released(tier, job);
        o := Call(n);
      } else {
        o := PrepareLoad(hits, n);
        if o.Ok? {
          o := Call(n);
        }
        SubmittedSound(slots, tier, extra, busy, started, hits);
        tier := if o.Ok? then Submitted(tier, job, hits) else tier;
      }
    }

    /** One lookup pass of a job that holds a slot; it raises exactly when one of its calls is in
        the plan. */
    method LookupPass(job: Parked, ghost rest: seq<Parked>, ghost busy: set<nat>, ghost started: nat, ghost n: nat)
      returns (o: Outcome, ghost first: seq<Option<Answer>>, ghost again: seq<Option<Answer>>)
      requires Sound(slots, tier, [job] + rest, busy, started) && JobOk(job) && Since(n, true)
      modifies this
      ensures Since(n, o.Ok?)
      ensures o.Ok? ==> Sound(slots, tier, rest, busy, started)
      ensures o.Ok? ==> PassDone(old(tier), job, first, again, resident, tier)
      ensures o.Ok? ==> |first| == |again| == |job.keys| &&
                        asked == old(asked) + Said(job.keys, first) + Said(job.keys, again)
    {
      var status, later;
      again := Silence(|job.keys|);
      SaidNothing(job.keys, |job.keys|);
      o, status, later, first := Resolve(job.keys, job.status, n);
      if o.Ok? && !touchFirst {
        o := Call(n);
      }
      ghost var status1 := status;
      if o.Ok? && !later && job.waited {
        o, status, later, again := Revalidate(job.keys, status, n);
      }
      if o.Ok? {
        NotAsked(status1);
        o := EndPass(job, status, later, rest, busy, started, n);
      }
    }

    /** Starts a load job for a unit that is not busy. */
    method StartLoad(keys: seq<Key>, tag: nat, ghost busy: set<nat>, ghost started: nat, ghost n: nat)
      returns (o: Outcome)
      requires Sound(slots, tier, [], busy, started) && tier.free != [] && tag !in busy && Since(n, true)
      modifies this
      ensures Since(n, o.Ok?)
      ensures o.Ok? ==> Sound(slots, tier, [], busy + {tag}, started + |keys|)
    {
      var job := NewJob(keys, tier.free[0], tag);
      ghost var busy', started' := busy + {tag}, started + |keys|;
      TakenSound(slots, tier, busy, started, job, busy', started');
      tier := Taken(tier);
      o := Call(n);
      if o.Ok? && touchFirst {
        o := Call(n);
      }
      if o.Ok? {
        ghost var first, again;
        o, first, again := LookupPass(job, [], busy', started', n);
      }
    }

    /** Every parked job gets another lookup pass; those still waiting are parked again. */
    method RetryParked(ghost busy: set<nat>, ghost started: nat, ghost n: nat) returns (o: Outcome)
      requires Sound(slots, tier, [], busy, started) && Since(n, true)
      modifies this
      ensures Since(n, o.Ok?)
      ensures o.Ok? ==> Sound(slots, tier, [], busy, started)
    {
      o := Ok;
      var jobs := tier.parked;
      assert forall i :: 0 <= i < |jobs| ==> JobOk(jobs[i]) by {
        assert Open(tier, 0);
      }
      UnparkedSound(slots, tier, busy, started);
      tier := tier.(parked := []);
      for i := 0 to |jobs|
        invariant o.Ok? && Since(n, true) && Sound(slots, tier, jobs[i..], busy, started)
      {
        assert jobs[i..] == [jobs[i]] + jobs[i + 1..];
        ghost var first, again;
        o, first, again := LookupPass(jobs[i], jobs[i + 1..], busy, started, n);
        if o.Raised? {
          return;
        }
      }
      assert jobs[|jobs|..] == [];
    }

    /** One poll. Results for jobs the loop does not know are skipped; a failed transfer raises
        after the whole batch is handled, a call that raises (`calm` says that none did) at once. */
    method Reap(results: seq<Report>, ghost busy: set<nat>, ghost started: nat, ghost n: nat)
      returns (o: Outcome, tags: set<nat>, ghost calm: bool)
      requires Sound(slots, tier, [], busy, started) && Since(n, true)
      modifies this
      ensures Since(n, calm) && (o.Ok? <==> calm && AllLanded(results, old(tier.pending.Keys)))
      ensures o.Ok? ==> Sound(slots, tier, [], busy - tags, started)
      ensures calm ==> tier.released == old(tier.released)
      ensures calm ==> tier.pending.Keys == old(tier.pending.Keys) - Ids(results)
    {
      tags, calm := {}, true;
      var failed := false;
      ghost var left := busy;
      o := Call(n);
      if o.Raised? {
        calm := false;
        return;
      }
      HandledAll(tier.pending.Keys, tier.pending.Keys, false, results);
      for i := 0 to |results|
        invariant Since(n, true) && calm
        invariant left == busy - tags && (!failed ==> Sound(slots, tier, [], left, started))
        invariant tier.released == old(tier.released)
        invariant Handled(old(tier.pending.Keys), tier.pending.Keys, failed, results, i)
      {
        HandledNext(old(tier.pending.Keys), tier.pending.Keys, failed, results, i);
        if results[i].job in tier.pending {
          var flight := tier.pending[results[i].job];
          o := Complete(results[i], !failed, left, started, n);
          if o.Raised? {
            calm := false;
            return;
          }
          failed := failed || !results[i].ok;
          tags := tags + {flight.tag};
          left := left - {flight.tag};
        }
      }
      HandledAll(old(tier.pending.Keys), tier.pending.Keys, failed, results);
      o := if failed then Raised else Ok;
    }

    /** One finished transfer is completed, gives its slot back, and its request ends. */
    method Complete(m: Report, ghost good: bool, ghost busy: set<nat>, ghost started: nat, ghost n: nat)
      returns (o: Outcome)
      requires m.job in tier.pending && (good ==> Sound(slots, tier, [], busy, started)) && Since(n, true)
      modifies this`calls, this`tier
      ensures Since(n, o.Ok?)
      ensures o.Ok? ==> tier.released == old(tier).released && tier.pending.Keys == old(tier).pending.Keys - {m.job}
      ensures o.Ok? && m.ok ==> tier == Landed(old(tier), m.job)
      ensures o.Ok? && good && m.ok ==> Sound(slots, tier, [], busy - {old(tier).pending[m.job].tag}, started)
    {
      o := Call(n);
      if o.Ok? {
        Land(m, good, busy, started);
        o := Call(n);
      } else {
        tier := tier.(pending := tier.pending - {m.job});
      }
    }

    /** One finished transfer. */
    method Land(m: Report, ghost good: bool, ghost busy: set<nat>, ghost started: nat)
      requires m.job in tier.pending && (good ==> Sound(slots, tier, [], busy, started))
      modifies this`tier
      ensures tier.released == old(tier).released && tier.pending == old(tier).pending - {m.job}
      ensures m.ok ==> tier == Landed(old(tier), m.job)
      ensures good && m.ok ==> Sound(slots, tier, [], busy - {old(tier).pending[m.job].tag}, started)
    {
      if good {
        LandedSound(slots, tier, busy, started, m.job);
      }
      var x := tier.pending[m.job];
      tier := tier.(pending := tier.pending - {m.job}, free := tier.free + [x.slot], n := tier.n - 1,
                    loaded := if m.ok then tier.loaded + |x.keys| else tier.loaded);
    }

    /** Hands over, and forgets, the tags released since the last call. */
    method ReleasedLoads(ghost busy: set<nat>, ghost started: nat) returns (out: set<nat>)
      requires Sound(slots, tier, [], busy, started)
      modifies this`tier
      ensures Sound(slots, tier, [], busy - out, started) && tier.released == {}
      ensures tier == old(tier).(released := {})
    {
      out := tier.released;
      ForgottenSound(slots, tier, busy, started);
      tier := tier.(released := {});
    }
  }

  /** No job of those known is reported as failed; the first report of a job is the one that counts. */
  ghost predicate AllLanded(results: seq<Report>, known: set<nat>) {
    forall i :: 0 <= i < |results| && results[i].job in known - Ids(results[..i]) ==> results[i].ok
  }

  /** After the first i reports: the jobs left, and whether one of them failed. Carried whole. */
  ghost predicate Handled(known: set<nat>, left: set<nat>, failed: bool, results: seq<Report>, i: nat) {
    forall k {:trigger Open(results, k)} :: Open(results, k) ==>
      i <= |results| && left == known - Ids(results[..i]) && (!failed <==> AllLanded(results[..i], known))
  }

  lemma HandledNext(known: set<nat>, left: set<nat>, failed: bool, results: seq<Report>, i: nat)
    requires Handled(known, left, failed, results, i) && i < |results|
    ensures results[i].job in left ==>
              Handled(known, left - {results[i].job}, failed || !results[i].ok, results, i + 1)
    ensures results[i].job !in left ==> Handled(known, left, failed, results, i + 1)
  {
    assert Open(results, 0);
    assert results[..i + 1] == results[..i] + [results[i]];
    LandedNext(results, i, known);
  }

  lemma HandledAll(known: set<nat>, left: set<nat>, failed: bool, results: seq<Report>)
    ensures Handled(known, known, false, results, 0)
    ensures Handled(known, left, failed, results, |results|) ==>
              left == known - Ids(results) && (!failed <==> AllLanded(results, known))
  {
    assert Open(results, 0);
    assert results[..|results|] == results;
  }

  lemma LandedNext(results: seq<Report>, i: nat, known: set<nat>)
    requires i < |results|
    ensures AllLanded(results[..i + 1], known) <==>
            AllLanded(results[..i], known) && (results[i].job in known - Ids(results[..i]) ==> results[i].ok)
  {
    assert forall k :: 0 <= k <= i ==> results[..i + 1][..k] == results[..k];
    assert forall k :: 0 <= k <= i ==> results[..i][..k] == results[..k];
  }

  lemma UnparkedSound(slots: nat, t: Tier, busy: set<nat>, started: nat)
    requires Sound(slots, t, [], busy, started)
    ensures Sound(slots, t.(parked := []), t.parked, busy, started)
  {
    Unseal(slots, t, [], busy, started);
    var t' := t.(parked := []);
    forall f ensures Even(f, slots, t', t.parked, busy, started) {
      UnparkedEven(f, slots, t, busy, started);
    }
  }

  lemma UnparkedEven(f: Facet, slots: nat, t: Tier, busy: set<nat>, started: nat)
    requires Even(f, slots, t, [], busy, started)
    ensures Even(f, slots, t.(parked := []), t.parked, busy, started)
  {
    assert Open(f, 0);
    Aside(Idle(f, t), Bag(f, t.parked), Flights(f, t.pending), Total(f, slots, busy, started));
  }

  lemma Aside(i: multiset<nat>, p: multiset<nat>, fl: multiset<nat>, all: multiset<nat>)
    requires i + multiset{} + p + fl == all
    ensures i + p + multiset{} + fl == all
  {
  }

  lemma ForgottenSound(slots: nat, t: Tier, busy: set<nat>, started: nat)
    requires Sound(slots, t, [], busy, started)
    ensures Sound(slots, t.(released := {}), [], busy - t.released, started)
  {
    Unseal(slots, t, [], busy, started);
    var t', busy' := t.(released := {}), busy - t.released;
    forall f ensures Even(f, slots, t', [], busy', started) {
      ForgottenEven(f, slots, t, busy, started);
    }
  }

  lemma ForgottenEven(f: Facet, slots: nat, t: Tier, busy: set<nat>, started: nat)
    requires Even(f, slots, t, [], busy, started)
    ensures Even(f, slots, t.(released := {}), [], busy - t.released, started)
  {
    assert Open(f, 0);
    if f == TagOf {
      Forget(t.released, Bag(f, t.parked), Flights(f, t.pending), busy);
    }
  }

  lemma Forget(released: set<nat>, p: multiset<nat>, fl: multiset<nat>, busy: set<nat>)
    requires multiset(released) + multiset{} + p + fl == multiset(busy)
    ensures multiset{} + multiset{} + p + fl == multiset(busy - released)
  {
    var all := multiset(busy);
    assert multiset(released) <= all;
    assert forall x :: x in released ==> x in all;
    assert multiset(busy - released) == all - multiset(released);
  }

  // --- What the equations say about single jobs ---

  /** Where a slot or a unit can be. */
  datatype Place = AtFree(i: nat) | AtParked(i: nat) | AtFlight(j: nat)

  ghost predicate Exists(f: Facet, t: Tier, p: Place) {
    match p
    case AtFree(i) => f == SlotOf && i < |t.free|
    case AtParked(i) => i < |t.parked|
    case AtFlight(j) => j in t.pending
  }

  ghost function MarkOf(f: Facet, slot: nat, tag: nat): nat {
    if f == SlotOf then slot else tag
  }

  ghost function MarkAt(f: Facet, t: Tier, p: Place): nat
    requires Exists(f, t, p)
  {
    match p
    case AtFree(i) => t.free[i]
    case AtParked(i) => MarkOf(f, t.parked[i].slot, t.parked[i].tag)
    case AtFlight(j) => MarkOf(f, t.pending[j].slot, t.pending[j].tag)
  }

  lemma {:induction false} BagCounts(f: Facet, jobs: seq<Parked>, i: nat, k: nat)
    requires f != SizeOf && i <= k < |jobs|
    ensures var x := MarkOf(f, jobs[i].slot, jobs[i].tag);
            Bag(f, jobs)[x] >= (if i < k && MarkOf(f, jobs[k].slot, jobs[k].tag) == x then 2 else 1)
    decreases |jobs|
  {
    if i > 0 {
      BagCounts(f, jobs[1..], i - 1, k - 1);
    } else if k > 0 {
      BagCounts(f, jobs[1..], k - 1, k - 1);
    }
  }

  lemma {:induction false} BagHas(f: Facet, jobs: seq<Parked>, x: nat) returns (i: nat)
    requires f != SizeOf && x in Bag(f, jobs)
    ensures i < |jobs| && MarkOf(f, jobs[i].slot, jobs[i].tag) == x
  {
    if MarkOf(f, jobs[0].slot, jobs[0].tag) == x {
      i := 0;
    } else {
      i := BagHas(f, jobs[1..], x);
      i := i + 1;
    }
  }

  lemma SumCount(shares: map<nat, multiset<nat>>, j: nat, k: nat, x: nat)
    requires j in shares && k in shares
    ensures Sum(shares)[x] >= shares[j][x] + if j != k then shares[k][x] else 0
  {
    SumRemove(shares, j);
    if j != k {
      SumRemove(shares - {j}, k);
    }
  }

  lemma {:induction false} SumHas(shares: map<nat, multiset<nat>>, x: nat) returns (j: nat)
    requires x in Sum(shares)
    ensures j in shares && x in shares[j]
    decreases |shares|
  {
    j :| j in shares;
    SumRemove(shares, j);
    if x !in shares[j] {
      assert (shares - {j}).Keys == shares.Keys - {j};
      j := SumHas(shares - {j}, x);
    }
  }

  lemma TotalOnce(f: Facet, slots: nat, busy: set<nat>, started: nat, x: nat)
    requires f != SizeOf
    ensures Total(f, slots, busy, started)[x] == if (if f == SlotOf then x < slots else x in busy) then 1 else 0
  {
    if f == SlotOf {
      RangeOnce(slots, x);
    }
  }

  lemma {:induction false} RangeOnce(n: nat, x: nat)
    ensures multiset(Range(n))[x] == if x < n then 1 else 0
  {
    if n > 0 {
      assert Range(n) == Range(n - 1) + [n - 1];
      RangeOnce(n - 1, x);
    }
  }

  lemma {:induction false} FreeCount(free: seq<nat>, i: nat, k: nat)
    requires i < |free| && k < |free|
    ensures multiset(free)[free[i]] >= if i != k && free[k] == free[i] then 2 else 1
    decreases |free|
  {
    FreeTaken(free);
    var rest := free[1..];
    if i > 0 && k > 0 {
      FreeCount(rest, i - 1, k - 1);
    } else if i > 0 {
      FreeCount(rest, i - 1, i - 1);
    } else if k > 0 {
      FreeCount(rest, k - 1, k - 1);
    }
  }

  /** Every slot found somewhere is one of the tier's, and every unit parked or being transferred
      is busy. */
  lemma PlaceKnown(f: Facet, slots: nat, t: Tier, busy: set<nat>, started: nat, p: Place)
    requires Sound(slots, t, [], busy, started) && f != SizeOf && Exists(f, t, p)
    ensures if f == SlotOf then MarkAt(f, t, p) < slots else MarkAt(f, t, p) in busy
  {
    Unseal(slots, t, [], busy, started);
    assert Even(f, slots, t, [], busy, started) && Open(f, 0);
    TotalOnce(f, slots, busy, started, MarkAt(f, t, p));
    CountAt(f, t, p, p);
    Once(Idle(f, t), Bag(f, t.parked), Flights(f, t.pending), Total(f, slots, busy, started), MarkAt(f, t, p));
  }

  /** No slot is in two places, and no unit is outstanding twice. */
  lemma PlacesApart(f: Facet, slots: nat, t: Tier, busy: set<nat>, started: nat, p: Place, q: Place)
    requires Sound(slots, t, [], busy, started) && f != SizeOf
    requires Exists(f, t, p) && Exists(f, t, q) && p != q
    ensures MarkAt(f, t, p) != MarkAt(f, t, q)
  {
    Unseal(slots, t, [], busy, started);
    assert Even(f, slots, t, [], busy, started) && Open(f, 0);
    TotalOnce(f, slots, busy, started, MarkAt(f, t, p));
    CountAt(f, t, p, q);
    CountAt(f, t, q, p);
    Once(Idle(f, t), Bag(f, t.parked), Flights(f, t.pending), Total(f, slots, busy, started), MarkAt(f, t, p));
  }

  lemma Once(i: multiset<nat>, p: multiset<nat>, fl: multiset<nat>, all: multiset<nat>, x: nat)
    requires i + multiset{} + p + fl == all
    ensures i[x] + p[x] + fl[x] == all[x]
  {
  }

  lemma ParkedCount(f: Facet, jobs: seq<Parked>, i: nat, k: nat)
    requires f != SizeOf && i < |jobs| && k < |jobs|
    ensures var x := MarkOf(f, jobs[i].slot, jobs[i].tag);
            Bag(f, jobs)[x] >= (if i != k && MarkOf(f, jobs[k].slot, jobs[k].tag) == x then 2 else 1)
  {
    if i <= k {
      BagCounts(f, jobs, i, k);
    } else {
      BagCounts(f, jobs, k, i);
      BagCounts(f, jobs, i, i);
    }
  }

  lemma FlightCount(f: Facet, pending: map<nat, Flight>, j: nat, k: nat)
    requires f != SizeOf && j in pending && k in pending
    ensures var x := MarkOf(f, pending[j].slot, pending[j].tag);
            Flights(f, pending)[x] >= (if j != k && MarkOf(f, pending[k].slot, pending[k].tag) == x then 2 else 1)
  {
    var x, shares := MarkOf(f, pending[j].slot, pending[j].tag), Shares(f, pending);
    SumCount(shares, j, k, x);
    OneMark(f, pending[j].keys, pending[j].slot, pending[j].tag, x);
    OneMark(f, pending[k].keys, pending[k].slot, pending[k].tag, x);
  }

  lemma OneMark(f: Facet, keys: seq<Key>, slot: nat, tag: nat, x: nat)
    requires f != SizeOf
    ensures Share(f, keys, slot, tag)[x] == if MarkOf(f, slot, tag) == x then 1 else 0
  {
  }

  lemma CountAt(f: Facet, t: Tier, p: Place, q: Place)
    requires f != SizeOf && Exists(f, t, p) && Exists(f, t, q)
    ensures var x := MarkAt(f, t, p);
            var need := if p != q && MarkAt(f, t, q) == x then 2 else 1;
            match p
            case AtFree(_) => Idle(f, t)[x] >= if q.AtFree? then need else 1
            case AtParked(_) => Bag(f, t.parked)[x] >= if q.AtParked? then need else 1
            case AtFlight(_) => Flights(f, t.pending)[x] >= if q.AtFlight? then need else 1
  {
    match p {
      case AtFree(i) =>
        FreeCount(t.free, i, if q.AtFree? then q.i else i);
      case AtParked(i) =>
        ParkedCount(f, t.parked, i, if q.AtParked? then q.i else i);
      case AtFlight(j) =>
        FlightCount(f, t.pending, j, if q.AtFlight? then q.j else j);
    }
  }

  /** Every slot is somewhere; with nothing just released, every busy unit is parked or being
      transferred. */
  lemma PlaceOf(f: Facet, slots: nat, t: Tier, busy: set<nat>, started: nat, x: nat) returns (p: Place)
    requires Sound(slots, t, [], busy, started) && f != SizeOf && t.released == {}
    requires if f == SlotOf then x < slots else x in busy
    ensures Exists(f, t, p) && MarkAt(f, t, p) == x
  {
    Unseal(slots, t, [], busy, started);
    assert Even(f, slots, t, [], busy, started) && Open(f, 0);
    TotalOnce(f, slots, busy, started, x);
    Once(Idle(f, t), Bag(f, t.parked), Flights(f, t.pending), Total(f, slots, busy, started), x);
    if x in Bag(f, t.parked) {
      var i := BagHas(f, t.parked, x);
      p := AtParked(i);
    } else if x in Flights(f, t.pending) {
      var j := SumHas(Shares(f, t.pending), x);
      p := AtFlight(j);
    } else {
      assert x in multiset(t.free);
      var i :| 0 <= i < |t.free| && t.free[i] == x;
      p := AtFree(i);
    }
  }

  /** Some job of the unit is parked or being transferred. */
  ghost predicate InTier(t: Tier, u: nat) {
    exists p :: Exists(TagOf, t, p) && MarkAt(TagOf, t, p) == u
  }

  /** With nothing just released, the busy units are exactly those parked or being transferred. */
  lemma BusyExact(slots: nat, t: Tier, busy: set<nat>, started: nat)
    requires Sound(slots, t, [], busy, started) && t.released == {}
    ensures forall u :: u in busy <==> InTier(t, u)
  {
    forall u ensures u in busy <==> InTier(t, u) {
      if u in busy {
        var p := PlaceOf(TagOf, slots, t, busy, started, u);
      }
      if InTier(t, u) {
        var p :| Exists(TagOf, t, p) && MarkAt(TagOf, t, p) == u;
        PlaceKnown(TagOf, slots, t, busy, started, p);
      }
    }
  }

  /** Every key started is loaded, missed, parked or being transferred. */
  lemma KeysAccounted(slots: nat, t: Tier, busy: set<nat>, started: nat)
    requires Sound(slots, t, [], busy, started)
    ensures t.loaded + t.missed + |Bag(SizeOf, t.parked)| + |Flights(SizeOf, t.pending)| == started
  {
    Unseal(slots, t, [], busy, started);
    assert Even(SizeOf, slots, t, [], busy, started) && Open(SizeOf, 0);
    Sizes(t.loaded + t.missed, Bag(SizeOf, t.parked), Flights(SizeOf, t.pending), started);
  }

  lemma Sizes(n: nat, p: multiset<nat>, fl: multiset<nat>, started: nat)
    requires Zeros(n) + multiset{} + p + fl == Zeros(started)
    ensures n + |p| + |fl| == started
  {
    assert |Zeros(n)| == n && |Zeros(started)| == started;
    assert |Zeros(n) + multiset{} + p + fl| == |Zeros(n)| + |p| + |fl|;
  }

  // --- The contention mode's tick ---

  /** Takes the next idle unit off the order, beginning a new pass when the order is empty. */
  method PickUnit(n: nat, order0: seq<nat>, busy: set<nat>) returns (u: Option<nat>, order: seq<nat>)
    requires forall i :: 0 <= i < |order0| ==> order0[i] < n
    ensures forall i :: 0 <= i < |order| ==> order[i] < n
    ensures u.Some? ==> u.value < n && u.value !in busy
    ensures u.None? ==> forall i :: 0 <= i < |order| ==> order[i] in busy
  {
    order := order0;
    if order == [] {
      order := Shuffled(n);
      assert forall i :: 0 <= i < |order| ==> order[i] in order;
    }
    var i := NextIdle(order, busy);
    if i == |order| {
      return None, order;
    }
    u, order := Some(order[i]), order[..i] + order[i + 1..];
  }

  /** These units were started, each once and none of them busy before; they are busy now. */
  ghost predicate BeganOk(units: seq<seq<Key>>, busy: set<nat>, busy': set<nat>, begun: seq<nat>) {
    && NoDup(begun)
    && (forall i :: 0 <= i < |begun| ==> begun[i] < |units| && begun[i] !in busy)
    && (forall u :: u in busy' <==> u in busy || u in begun)
  }

  /** BeganOk, carried whole, with the number of keys of these units. */
  ghost predicate Began(units: seq<seq<Key>>, busy: set<nat>, busy': set<nat>, begun: seq<nat>, keys: int) {
    forall k {:trigger Open(begun, k)} :: Open(begun, k) ==>
      BeganOk(units, busy, busy', begun) && keys == UnitKeys(units, begun)
  }

  ghost function UnitKeys(units: seq<seq<Key>>, begun: seq<nat>): nat {
    if begun == [] then 0 else
      var u := begun[|begun| - 1];
      UnitKeys(units, begun[..|begun| - 1]) + if u < |units| then |units[u]| else 0
  }

  lemma BeganNone(units: seq<seq<Key>>, busy: set<nat>)
    ensures Began(units, busy, busy, [], 0)
  {
  }

  lemma BeganNext(units: seq<seq<Key>>, busy: set<nat>, busy': set<nat>, begun: seq<nat>, keys: int, u: nat)
    requires Began(units, busy, busy', begun, keys) && u < |units| && u !in busy'
    ensures Began(units, busy, busy' + {u}, begun + [u], keys + |units[u]|)
  {
    assert Open(begun, 0);
    assert (begun + [u])[..|begun|] == begun;
    assert forall v :: v in begun + [u] <==> v in begun || v == u;
  }

  /** Starts load jobs into the free slots, each unit at most once, skipping busy units. */
  method FillLoads(loop: CpuTierLoop, units: seq<seq<Key>>, order0: seq<nat>, busy0: set<nat>, ghost started0: nat,
                   ghost n: nat)
    returns (o: Outcome, order: seq<nat>, busy: set<nat>, ghost started: nat, ghost begun: seq<nat>)
    requires Sound(loop.slots, loop.tier, [], busy0, started0) && loop.Since(n, true)
    requires forall i :: 0 <= i < |order0| ==> order0[i] < |units|
    modifies loop
    ensures loop.Since(n, o.Ok?)
    ensures o.Ok? ==> Sound(loop.slots, loop.tier, [], busy, started)
    ensures forall i :: 0 <= i < |order| ==> order[i] < |units|
    ensures started0 <= started && Began(units, busy0, busy, begun, started - started0)
  {
    o, order, busy, started, begun := Ok, order0, busy0, started0, [];
    BeganNone(units, busy0);
    var tried := 0;
    while loop.tier.free != [] && tried < |units|
      invariant o.Ok? && loop.Since(n, true) && Sound(loop.slots, loop.tier, [], busy, started)
      invariant forall i :: 0 <= i < |order| ==> order[i] < |units|
      invariant Began(units, busy0, busy, begun, started - started0) && started0 <= started
      decreases |units| - tried
    {
      var next;
      next, order := PickUnit(|units|, order, busy);
      if next.None? {
        return;
      }
      tried := tried + 1;
      BeganNext(units, busy0, busy, begun, started - started0, next.value);
      o, busy, started := StartUnit(loop, units[next.value], next.value, busy, started, n);
      begun := begun + [next.value];
      if o.Raised? {
        return;
      }
    }
  }

  /** Starts a load job for an idle unit, which is busy from then on. */
  method StartUnit(loop: CpuTierLoop, keys: seq<Key>, u: nat, busy: set<nat>, ghost started: nat, ghost n: nat)
    returns (o: Outcome, busy': set<nat>, ghost started': nat)
    requires Sound(loop.slots, loop.tier, [], busy, started) && loop.tier.free != [] && u !in busy
    requires loop.Since(n, true)
    modifies loop
    ensures loop.Since(n, o.Ok?)
    ensures o.Ok? ==> Sound(loop.slots, loop.tier, [], busy', started')
    ensures busy' == busy + {u} && started' == started + |keys|
  {
    busy', started' := busy + {u}, started + |keys|;
    o := loop.StartLoad(keys, u, busy, started, n);
  }

  /** One tick of the contention mode: retry the parked jobs, start new ones while running, poll,
      and forget the released units. Afterwards the busy units are exactly those of the jobs
      parked or in flight. It raises exactly when one of its calls is in the plan (`calm` says
      that none is) or the first report of a job then pending is a failure. */
  method ContentionTick(loop: CpuTierLoop, units: seq<seq<Key>>, order0: seq<nat>, busy0: set<nat>, running: bool,
                        results: seq<Report>, ghost started0: nat)
    returns (o: Outcome, order: seq<nat>, busy: set<nat>, ghost started: nat, ghost calm: bool, ghost known: set<nat>)
    requires Sound(loop.slots, loop.tier, [], busy0, started0)
    requires forall i :: 0 <= i < |order0| ==> order0[i] < |units|
    modifies loop
    ensures loop.Since(old(loop.calls), calm) && (o.Ok? <==> calm && AllLanded(results, known))
    ensures o.Ok? ==> Sound(loop.slots, loop.tier, [], busy, started) && loop.tier.released == {}
    ensures o.Ok? ==> loop.tier.pending.Keys == known - Ids(results)
    ensures o.Ok? ==> forall u :: u in busy <==> InTier(loop.tier, u)
    ensures forall i :: 0 <= i < |order| ==> order[i] < |units|
    ensures started0 <= started
  {
    order, busy, started, calm, known := order0, busy0, started0, false, {};
    ghost var n := loop.calls;
    StepLoops.CleanStart(n, loop.faults);
    o := loop.RetryParked(busy, started, n);
    if o.Ok? && running {
      ghost var begun;
      o, order, busy, started, begun := FillLoads(loop, units, order, busy, started, n);
    }
    if o.Raised? {
      return;
    }
    known := loop.tier.pending.Keys;
    var tags;
    o, tags, calm := loop.Reap(results, busy, started, n);
    if o.Ok? {
      busy := busy - tags;
      var released := loop.ReleasedLoads(busy, started);
      busy := busy - released;
      BusyExact(loop.slots, loop.tier, busy, started);
      o := loop.Call(n);
      calm := o.Ok?;
    }
  }
}
