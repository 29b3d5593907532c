/** Round-robin selection (selectJob in internal/coordinator/coordinator.go). */
module Selection {
  import opened Types
  import opened Protocol

  const HEARTBEAT_TIMEOUT := 10000000000  // nanoseconds
  const WRAP := 0x1_0000_0000_0000_0000    // the cursor is a uint64

  /** The backend and model an attempt was sent to. */
  datatype Target = Target(backend: Backend, model: Model)

  /** A registered host: its catalog, when it was last heard, and its outstanding jobs. */
  datatype HostState = HostState(backends: seq<Backend>, lastHeartbeat: int, jobs: map<string, Target>)

  datatype Candidate = Candidate(host: string, target: Target)

  // ---- what makes a candidate ----

  predicate Fresh(h: HostState, now: int) {
    now - h.lastHeartbeat < HEARTBEAT_TIMEOUT
  }

  /** A retry keeps source and kind, and for local models the digest. */
  predicate Matches(previous: Option<Target>, b: Backend, m: Model) {
    previous.Some? ==>
      && b.source == previous.value.backend.source && b.kind == previous.value.backend.kind
      && (b.source == "local" ==> m.digest == previous.value.model.digest)
  }

  function OnBackend(jobs: map<string, Target>, backendId: string): set<string> {
    set j | j in jobs && jobs[j].backend.id == backendId
  }

  predicate HasRoom(h: HostState, b: Backend) {
    b.ready && |OnBackend(h.jobs, b.id)| < b.capacity
  }

  /** A request: the model asked for, the host to avoid, the attempt it replaces, the time. */
  datatype Wish = Wish(modelId: string, excluded: string, previous: Option<Target>, now: int)

  /** The host of that name can take the request on that backend and model. */
  ghost predicate EligibleOn(host: string, h: HostState, w: Wish, t: Target) {
    && host != w.excluded && Fresh(h, w.now)
    && t.backend in h.backends && HasRoom(h, t.backend)
    && t.model in t.backend.models && t.model.id == w.modelId
    && Matches(w.previous, t.backend, t.model)
  }

  ghost predicate Eligible(hosts: map<string, HostState>, w: Wish, c: Candidate) {
    c.host in hosts && EligibleOn(c.host, hosts[c.host], w, c.target)
  }

  /** Written out: another host than the excluded one, heard from in the last ten seconds, whose ready
      backend has fewer outstanding jobs than its capacity and lists the model asked for; and for a retry
      the same source and kind as before, and the same digest when local. */
  lemma EligibleMeans(hosts: map<string, HostState>, w: Wish, c: Candidate)
    ensures Eligible(hosts, w, c) <==>
      && c.host in hosts && c.host != w.excluded && w.now - hosts[c.host].lastHeartbeat < 10_000_000_000
      && c.target.backend in hosts[c.host].backends && c.target.backend.ready
      && |set j | j in hosts[c.host].jobs && hosts[c.host].jobs[j].backend.id == c.target.backend.id|
           < c.target.backend.capacity
      && c.target.model in c.target.backend.models && c.target.model.id == w.modelId
      && (w.previous.None?
          || (&& c.target.backend.source == w.previous.value.backend.source
              && c.target.backend.kind == w.previous.value.backend.kind
              && (c.target.backend.source != "local" || c.target.model.digest == w.previous.value.model.digest)))
  {
    if c.host in hosts {
      var jobs := hosts[c.host].jobs;
      assert OnBackend(jobs, c.target.backend.id) == set j | j in jobs && jobs[j].backend.id == c.target.backend.id;
    }
  }

  // ---- the candidate list ----

  function FromModels(host: string, b: Backend, ms: seq<Model>, w: Wish): seq<Candidate> {
    if ms == [] then []
    else
      var m := ms[|ms| - 1];
      FromModels(host, b, ms[..|ms| - 1], w) +
      if m.id == w.modelId && Matches(w.previous, b, m) then [Candidate(host, Target(b, m))] else []
  }

  function FromBackends(host: string, h: HostState, bs: seq<Backend>, w: Wish): seq<Candidate> {
    if bs == [] then []
    else
      var b := bs[|bs| - 1];
      FromBackends(host, h, bs[..|bs| - 1], w) + if HasRoom(h, b) then FromModels(host, b, b.models, w) else []
  }

  function FromHosts(hosts: map<string, HostState>, ids: seq<string>, w: Wish): seq<Candidate>
    requires forall i | 0 <= i < |ids| :: ids[i] in hosts
  {
    if ids == [] then []
    else
      var id := ids[|ids| - 1];
      FromHosts(hosts, ids[..|ids| - 1], w) +
      if id == w.excluded || !Fresh(hosts[id], w.now) then []
      else FromBackends(id, hosts[id], hosts[id].backends, w)
  }

  lemma {:induction false} ModelsMembers(host: string, b: Backend, ms: seq<Model>, w: Wish, c: Candidate)
    ensures c in FromModels(host, b, ms, w) <==>
      c.host == host && c.target.backend == b && c.target.model in ms
      && c.target.model.id == w.modelId && Matches(w.previous, b, c.target.model)
  {
    hide Matches;
    if ms != [] {
      var front := ms[..|ms| - 1];
      assert ms == front + [ms[|ms| - 1]];
      ModelsMembers(host, b, front, w, c);
    }
  }

  lemma {:induction false} BackendsMembers(host: string, h: HostState, bs: seq<Backend>, w: Wish, c: Candidate)
    ensures c in FromBackends(host, h, bs, w) <==>
      && c.target.backend in bs && HasRoom(h, c.target.backend)
      && c in FromModels(host, c.target.backend, c.target.backend.models, w)
  {
    hide HasRoom, FromModels;
    if bs != [] {
      var front := bs[..|bs| - 1];
      assert bs == front + [bs[|bs| - 1]];
      BackendsMembers(host, h, front, w, c);
      ModelsMembers(host, bs[|bs| - 1], bs[|bs| - 1].models, w, c);
    }
  }

  lemma {:induction false} HostsMembers(hosts: map<string, HostState>, ids: seq<string>, w: Wish, c: Candidate)
    requires forall i | 0 <= i < |ids| :: ids[i] in hosts
    ensures c in FromHosts(hosts, ids, w) <==>
      c.host in ids && c.host != w.excluded && Fresh(hosts[c.host], w.now)
      && c in FromBackends(c.host, hosts[c.host], hosts[c.host].backends, w)
  {
    hide FromBackends, Fresh, FromModels;
    if ids != [] {
      var front, id := ids[..|ids| - 1], ids[|ids| - 1];
      assert ids == front + [id];
      HostsMembers(hosts, front, w, c);
      BackendsMembers(id, hosts[id], hosts[id].backends, w, c);
      ModelsMembers(id, c.target.backend, c.target.backend.models, w, c);
    }
  }

  /** The list holds exactly the eligible candidates. */
  lemma CandidatesAreEligible(hosts: map<string, HostState>, ids: seq<string>, w: Wish, c: Candidate)
    requires forall id :: id in ids <==> id in hosts
    ensures c in FromHosts(hosts, ids, w) <==> Eligible(hosts, w, c)
  {
    hide FromHosts, FromBackends, FromModels, HasRoom, Fresh, Matches;
    HostsMembers(hosts, ids, w, c);
    if c.host in hosts {
      BackendsMembers(c.host, hosts[c.host], hosts[c.host].backends, w, c);
      ModelsMembers(c.host, c.target.backend, c.target.backend.models, w, c);
    }
  }

  // ---- sorting host identifiers ----

  /** Byte order on strings. */
  predicate AtMost(a: string, b: string) {
    a == [] || (b != [] && (a[0] < b[0] || (a[0] == b[0] && AtMost(a[1..], b[1..]))))
  }

  lemma {:induction false} AtMostTotal(a: string, b: string)
    ensures AtMost(a, b) || AtMost(b, a)
  {
    if a != [] && b != [] && a[0] == b[0] { AtMostTotal(a[1..], b[1..]); }
  }

  lemma {:induction false} AtMostAntisymmetric(a: string, b: string)
    requires AtMost(a, b) && AtMost(b, a)
    ensures a == b
  {
    if a != [] && b != [] {
      AtMostAntisymmetric(a[1..], b[1..]);
      assert a == [a[0]] + a[1..] && b == [b[0]] + b[1..];
    }
  }

  lemma {:induction false} AtMostTransitive(a: string, b: string, c: string)
    requires AtMost(a, b) && AtMost(b, c)
    ensures AtMost(a, c)
  {
    if a != [] && a[0] == b[0] == c[0] { AtMostTransitive(a[1..], b[1..], c[1..]); }
  }

  ghost predicate Sorted(s: seq<string>) {
    forall i, j | 0 <= i < j < |s| :: AtMost(s[i], s[j]) && s[i] != s[j]
  }

  lemma HeadIsApart(s: seq<string>)
    requires Sorted(s) && s != []
    ensures Sorted(s[1..]) && forall x :: x in s[1..] <==> x in s && x != s[0]
  {
    hide AtMost;
    assert s == [s[0]] + s[1..];
  }

  lemma EmptyAlike(s: seq<string>, t: seq<string>)
    requires forall x :: x in s <==> x in t
    ensures s == [] <==> t == []
  {
    if s != [] {
      assert s[0] in s;
    }
    if t != [] {
      assert t[0] in t;
    }
  }

  /** There is only one sorted list of a set of identifiers, so the order in which a map is
      walked cannot show. */
  lemma {:induction false} SortedIsUnique(s: seq<string>, t: seq<string>)
    requires Sorted(s) && Sorted(t) && forall x :: x in s <==> x in t
    ensures s == t
  {
    EmptyAlike(s, t);
    if s != [] {
      assert s[0] in t;
      assert t[0] in s;
      assert s[0] == t[0] by {
        var i :| 0 <= i < |t| && t[i] == s[0];
        var j :| 0 <= j < |s| && s[j] == t[0];
        if i > 0 && j > 0 { AtMostAntisymmetric(s[0], t[0]); }
      }
      HeadIsApart(s);
      HeadIsApart(t);
      SortedIsUnique(s[1..], t[1..]);
    }
  }

  /** Puts an identifier into a sorted list. */
  method Insert(s: seq<string>, x: string) returns (t: seq<string>)
    requires Sorted(s) && x !in s
    ensures Sorted(t) && forall y :: y in t <==> y == x || y in s
  {
    hide AtMost;
    var i := 0;
    while i < |s| && AtMost(s[i], x)
      invariant 0 <= i <= |s|
      invariant forall k | 0 <= k < i :: AtMost(s[k], x)
    {
      i := i + 1;
    }
    t := s[..i] + [x] + s[i..];
    if i < |s| {
      AtMostTotal(s[i], x);
    }
    forall k | i <= k < |s| ensures AtMost(x, s[k]) {
      if k > i { AtMostTransitive(x, s[i], s[k]); }
    }
  }

  /** Walks the map in any order and sorts the keys. */
  method SortedIds(hosts: map<string, HostState>) returns (ids: seq<string>)
    ensures Sorted(ids) && forall id :: id in ids <==> id in hosts
  {
    ids := [];
    var left := hosts.Keys;
    while left != {}
      invariant Sorted(ids) && left <= hosts.Keys
      invariant forall id :: id in ids <==> id in hosts.Keys - left
      decreases |left|
    {
      var id :| id in left;
      ids := Insert(ids, id);
      left := left - {id};
    }
  }

  // ---- the coordinator's table ----

  /** The slot the cursor points at. */
  function Pick(candidates: seq<Candidate>, cursor: nat): Candidate
    requires candidates != []
  {
    candidates[cursor % |candidates|]
  }

  /** The table at one moment. */
  datatype Snapshot = Snapshot(hosts: map<string, HostState>, cursor: nat)

  /** cs is the candidate list, whatever order the map is walked in. */
  ghost predicate Lists(hosts: map<string, HostState>, w: Wish, cs: seq<Candidate>) {
    exists ids: seq<string> ::
      Sorted(ids) && (forall id :: id in ids <==> id in hosts) && cs == FromHosts(hosts, ids, w)
  }

  /** One successful selection. */
  ghost predicate Selects(a: Snapshot, w: Wish, freshId: string, r: Candidate, b: Snapshot) {
    && r.host in a.hosts
    && (forall cs | Lists(a.hosts, w, cs) :: cs != [] && r == Pick(cs, a.cursor))
    && b == Snapshot(a.hosts[r.host := a.hosts[r.host].(jobs := a.hosts[r.host].jobs[freshId := r.target])],
                     (a.cursor + 1) % WRAP)
  }

  class Table {
    var hosts: map<string, HostState>
    var cursor: nat

    ghost predicate Valid()
      reads this
    {
      cursor < WRAP
    }

    /** Reserves a place under a fresh identifier, or reports that nothing is eligible. */
    method SelectJob(w: Wish, freshId: string) returns (r: Option<Candidate>)
      requires Valid()
      modifies this
      ensures Valid()
      ensures r.None? <==> !exists c :: old(Eligible(hosts, w, c))
      ensures r.None? ==> hosts == old(hosts) && cursor == old(cursor)
      ensures r.Some? ==>
        && old(Eligible(hosts, w, r.value))
        && hosts == old(hosts)[r.value.host := old(hosts)[r.value.host].(
             jobs := old(hosts)[r.value.host].jobs[freshId := r.value.target])]
        && cursor == (old(cursor) + 1) % WRAP
      ensures r.Some? ==>
        Selects(old(Snapshot(hosts, cursor)), w, freshId, r.value, Snapshot(hosts, cursor))
      ensures r.Some? ==>
        forall ids: seq<string> | Sorted(ids) && (forall id :: id in ids <==> id in old(hosts)) ::
          FromHosts(old(hosts), ids, w) != [] && r.value == Pick(FromHosts(old(hosts), ids, w), old(cursor))
    {
      hide Eligible, FromHosts, FromBackends, FromModels, HasRoom, AtMost, Sorted, Matches, Fresh;
      var ids := SortedIds(hosts);
      var candidates := ListCandidates(ids, w);
      forall c ensures c in candidates <==> Eligible(hosts, w, c) {
        CandidatesAreEligible(hosts, ids, w, c);
      }
      forall other: seq<string> | Sorted(other) && (forall id :: id in other <==> id in hosts)
        ensures other == ids
      {
        SortedIsUnique(other, ids);
      }
      if |candidates| == 0 {
        return None;
      }
      var j := Pick(candidates, cursor);
      assert j in candidates;
      HostIsListed(hosts, w, j);
      cursor := (cursor + 1) % WRAP;
      var h := hosts[j.host];
      hosts := hosts[j.host := h.(jobs := h.jobs[freshId := j.target])];
      return Some(j);
    }

    /** The three nested loops of selectJob. */
    method ListCandidates(ids: seq<string>, w: Wish) returns (cs: seq<Candidate>)
      requires forall i | 0 <= i < |ids| :: ids[i] in hosts
      ensures cs == FromHosts(hosts, ids, w)
    {
      hide HasRoom, Matches, Fresh;
      cs := [];
      var i := 0;
      while i < |ids|
        invariant 0 <= i <= |ids| && cs == FromHosts(hosts, ids[..i], w)
      {
        var id := ids[i];
        var h := hosts[id];
        assert ids[..i + 1][..i] == ids[..i];
        if id != w.excluded && Fresh(h, w.now) {
          var more := FromOneHost(id, h, w);
          cs := cs + more;
        }
        i := i + 1;
      }
      assert ids[..i] == ids;
    }

    method FromOneHost(id: string, h: HostState, w: Wish) returns (cs: seq<Candidate>)
      ensures cs == FromBackends(id, h, h.backends, w)
    {
      hide Matches;
      cs := [];
      var i := 0;
      while i < |h.backends|
        invariant 0 <= i <= |h.backends| && cs == FromBackends(id, h, h.backends[..i], w)
      {
        var b := h.backends[i];
        assert h.backends[..i + 1][..i] == h.backends[..i];
        var active := |OnBackend(h.jobs, b.id)|;
        if b.ready && active < b.capacity {
          var k := 0;
          var found: seq<Candidate> := [];
          while k < |b.models|
            invariant 0 <= k <= |b.models| && found == FromModels(id, b, b.models[..k], w)
          {
            var m := b.models[k];
            assert b.models[..k + 1][..k] == b.models[..k];
            if m.id == w.modelId && Matches(w.previous, b, m) {
              found := found + [Candidate(id, Target(b, m))];
            }
            k := k + 1;
          }
          assert b.models[..k] == b.models;
          cs := cs + found;
        }
        i := i + 1;
      }
      assert h.backends[..i] == h.backends;
    }
  }

  lemma HostIsListed(hosts: map<string, HostState>, w: Wish, c: Candidate)
    requires Eligible(hosts, w, c)
    ensures c.host in hosts
  {}

  // ---- fairness ----

  /** The position picked i selections from now in an unchanged list of n candidates. */
  function Position(cursor: nat, i: nat, n: nat): (p: nat)
    requires n > 0
    ensures p < n
  {
    (cursor + i) % WRAP % n
  }

  /** n consecutive selections never pick a position twice. */
  ghost predicate NoRepeat(cursor: nat, n: nat)
    requires n > 0
  {
    forall i: nat, j: nat | i < j < n :: Position(cursor, i, n) != Position(cursor, j, n)
  }

  /** How many selections from now the position comes up, when nothing wraps. */
  function Turn(cursor: nat, n: nat, p: nat): nat
    requires p < n
  {
    if p >= cursor % n then p - cursor % n else n + p - cursor % n
  }

  // ---- the order of the list ----

  /** Where in its host's catalog the candidate stands. */
  ghost predicate StandsAt(hosts: map<string, HostState>, c: Candidate, backend: nat, model: nat) {
    && c.host in hosts && backend < |hosts[c.host].backends| && hosts[c.host].backends[backend] == c.target.backend
    && model < |c.target.backend.models| && c.target.backend.models[model] == c.target.model
  }

  /** First by host identifier, then by the place of the backend in the catalog, then of the model. */
  ghost predicate Precedes(hosts: map<string, HostState>, c: Candidate, d: Candidate) {
    if c.host != d.host then AtMost(c.host, d.host)
    else
      exists b: nat, m: nat, b': nat, m': nat ::
        StandsAt(hosts, c, b, m) && StandsAt(hosts, d, b', m') && (b < b' || (b == b' && m < m'))
  }

  lemma {:induction false} ModelsInOrder(host: string, b: Backend, ms: seq<Model>, w: Wish, i: nat, j: nat)
    returns (m: nat, n: nat)
    requires i < j < |FromModels(host, b, ms, w)|
    ensures m < n < |ms|
    ensures FromModels(host, b, ms, w)[i] == Candidate(host, Target(b, ms[m]))
    ensures FromModels(host, b, ms, w)[j] == Candidate(host, Target(b, ms[n]))
  {
    hide Matches;
    var front := FromModels(host, b, ms[..|ms| - 1], w);
    if j < |front| {
      m, n := ModelsInOrder(host, b, ms[..|ms| - 1], w, i, j);
    } else {
      m := ModelAt(host, b, ms[..|ms| - 1], w, i);
      n := |ms| - 1;
    }
  }

  lemma ModelAt(host: string, b: Backend, ms: seq<Model>, w: Wish, i: nat) returns (m: nat)
    requires i < |FromModels(host, b, ms, w)|
    ensures m < |ms| && FromModels(host, b, ms, w)[i] == Candidate(host, Target(b, ms[m]))
  {
    hide FromModels, Matches;
    var c := FromModels(host, b, ms, w)[i];
    ModelsMembers(host, b, ms, w, c);
    assert c in FromModels(host, b, ms, w);
    m :| 0 <= m < |ms| && ms[m] == c.target.model;
  }

  /** The candidate of a host stands at those places in the list of backends and in its models. */
  ghost predicate Found(c: Candidate, host: string, bs: seq<Backend>, backend: nat, model: nat) {
    && backend < |bs| && model < |bs[backend].models|
    && c == Candidate(host, Target(bs[backend], bs[backend].models[model]))
  }

  lemma BackendAt(host: string, h: HostState, bs: seq<Backend>, w: Wish, i: nat) returns (b: nat, m: nat)
    requires i < |FromBackends(host, h, bs, w)|
    ensures Found(FromBackends(host, h, bs, w)[i], host, bs, b, m)
  {
    hide FromModels, FromBackends, Matches, HasRoom;
    var c := FromBackends(host, h, bs, w)[i];
    BackendsMembers(host, h, bs, w, c);
    assert c in FromBackends(host, h, bs, w);
    b :| 0 <= b < |bs| && bs[b] == c.target.backend;
    ModelsMembers(host, bs[b], bs[b].models, w, c);
    m :| 0 <= m < |bs[b].models| && bs[b].models[m] == c.target.model;
  }

  lemma {:induction false} BackendsInOrder(host: string, h: HostState, bs: seq<Backend>, w: Wish, i: nat, j: nat)
    returns (b: nat, m: nat, b': nat, m': nat)
    requires i < j < |FromBackends(host, h, bs, w)|
    ensures Found(FromBackends(host, h, bs, w)[i], host, bs, b, m)
    ensures Found(FromBackends(host, h, bs, w)[j], host, bs, b', m')
    ensures b < b' || (b == b' && m < m')
  {
    hide FromModels, Matches, HasRoom;
    var front, last := bs[..|bs| - 1], bs[|bs| - 1];
    var n := |FromBackends(host, h, front, w)|;
    if j < n {
      b, m, b', m' := BackendsInOrder(host, h, front, w, i, j);
    } else {
      b' := |bs| - 1;
      if i < n {
        b, m := BackendAt(host, h, front, w, i);
        m' := ModelAt(host, last, last.models, w, j - n);
      } else {
        b := |bs| - 1;
        m, m' := ModelsInOrder(host, last, last.models, w, i - n, j - n);
      }
    }
  }

  lemma HostAt(hosts: map<string, HostState>, ids: seq<string>, w: Wish, i: nat) returns (b: nat, m: nat)
    requires forall k | 0 <= k < |ids| :: ids[k] in hosts
    requires i < |FromHosts(hosts, ids, w)|
    ensures FromHosts(hosts, ids, w)[i].host in ids && StandsAt(hosts, FromHosts(hosts, ids, w)[i], b, m)
  {
    hide FromHosts, FromBackends, FromModels, Matches, HasRoom, Fresh;
    var c := FromHosts(hosts, ids, w)[i];
    HostsMembers(hosts, ids, w, c);
    assert c in FromHosts(hosts, ids, w);
    var bs := FromBackends(c.host, hosts[c.host], hosts[c.host].backends, w);
    var k :| 0 <= k < |bs| && bs[k] == c;
    b, m := BackendAt(c.host, hosts[c.host], hosts[c.host].backends, w, k);
  }

  lemma {:induction false} HostsInOrder(hosts: map<string, HostState>, ids: seq<string>, w: Wish, i: nat, j: nat)
    requires forall k | 0 <= k < |ids| :: ids[k] in hosts
    requires Sorted(ids) && i < j < |FromHosts(hosts, ids, w)|
    ensures Precedes(hosts, FromHosts(hosts, ids, w)[i], FromHosts(hosts, ids, w)[j])
  {
    hide FromBackends, AtMost, Matches, HasRoom, Fresh;
    var front, last := ids[..|ids| - 1], ids[|ids| - 1];
    var n := |FromHosts(hosts, front, w)|;
    if j < n {
      HostsInOrder(hosts, front, w, i, j);
    } else if i < n {
      var b, m := HostAt(hosts, front, w, i);
      var b', m' := BackendAt(last, hosts[last], hosts[last].backends, w, j - n);
      EarlierHostIsBelow(ids, FromHosts(hosts, front, w)[i].host);
    } else {
      var b, m, b', m' := BackendsInOrder(last, hosts[last], hosts[last].backends, w, i - n, j - n);
      assert StandsAt(hosts, FromHosts(hosts, ids, w)[i], b, m);
      assert StandsAt(hosts, FromHosts(hosts, ids, w)[j], b', m');
    }
  }

  lemma EarlierHostIsBelow(ids: seq<string>, id: string)
    requires Sorted(ids) && ids != [] && id in ids[..|ids| - 1]
    ensures id != ids[|ids| - 1] && AtMost(id, ids[|ids| - 1])
  {
    hide AtMost;
    var k :| 0 <= k < |ids| - 1 && ids[k] == id;
  }

  /** The candidate list is in order of host identifiers, then of the catalog, then of the models. */
  lemma CandidatesAreInOrder(hosts: map<string, HostState>, w: Wish, cs: seq<Candidate>, i: nat, j: nat)
    requires Lists(hosts, w, cs) && i < j < |cs|
    ensures Precedes(hosts, cs[i], cs[j])
  {
    hide Precedes, FromHosts, AtMost;
    var ids :| Sorted(ids) && (forall id :: id in ids <==> id in hosts) && cs == FromHosts(hosts, ids, w);
    HostsInOrder(hosts, ids, w, i, j);
  }

  ghost predicate Conforming(hosts: map<string, HostState>) {
    forall id | id in hosts :: CatalogConforms(hosts[id].backends)
  }

  /** When every catalog conforms, no candidate is listed twice. */
  lemma CandidatesAreDistinct(hosts: map<string, HostState>, w: Wish, cs: seq<Candidate>, i: nat, j: nat)
    requires Lists(hosts, w, cs) && Conforming(hosts) && i < j < |cs|
    ensures cs[i] != cs[j]
  {
    hide Lists, BackendConforms, Precedes;
    CandidatesAreInOrder(hosts, w, cs, i, j);
    if cs[i] == cs[j] {
      NothingPrecedesItself(hosts, cs[i]);
    }
  }

  lemma NothingPrecedesItself(hosts: map<string, HostState>, c: Candidate)
    requires Conforming(hosts)
    ensures !Precedes(hosts, c, c)
  {
    forall b: nat, m: nat, b': nat, m': nat | StandsAt(hosts, c, b, m) && StandsAt(hosts, c, b', m')
      ensures b == b' && m == m'
    {
      assert BackendConforms(hosts[c.host].backends[b]);
    }
  }

  /** The list holds exactly the eligible candidates. */
  lemma ListedAreEligible(hosts: map<string, HostState>, w: Wish, cs: seq<Candidate>, c: Candidate)
    requires Lists(hosts, w, cs)
    ensures c in cs <==> Eligible(hosts, w, c)
  {
    hide Eligible, FromHosts, AtMost;
    var ids :| Sorted(ids) && (forall id :: id in ids <==> id in hosts) && cs == FromHosts(hosts, ids, w);
    CandidatesAreEligible(hosts, ids, w, c);
  }

  /** Round robin picks every position exactly once, up to the wrap of the cursor: the selections
      repeat a position exactly when they cross the wrap and n does not divide the cursor's range. */
  lemma RoundRobinIsFairUpToTheWrap(cursor: nat, n: nat)
    requires 0 < n && cursor < WRAP
    ensures NoRepeat(cursor, n) <==> cursor + n <= WRAP || WRAP % n == 0
    ensures cursor + n <= WRAP || WRAP % n == 0 ==>
      forall p: nat | p < n :: Turn(cursor, n, p) < n && Position(cursor, Turn(cursor, n, p), n) == p
  {
    if cursor + n <= WRAP || WRAP % n == 0 {
      forall i: nat | i < n ensures Position(cursor, i, n) == (cursor + i) % n {
        NoWrapPosition(cursor, i, n);
      }
      forall i: nat, j: nat | i < j < n ensures Position(cursor, i, n) != Position(cursor, j, n) {
        ResidueOfSum(cursor, n, i);
        ResidueOfSum(cursor, n, j);
      }
      forall p: nat | p < n ensures Turn(cursor, n, p) < n && Position(cursor, Turn(cursor, n, p), n) == p {
        ResidueOfSum(cursor, n, Turn(cursor, n, p));
      }
    } else {
      Repeats(cursor, n);
    }
  }

  /** Consecutive selections go round an unchanged candidate list, however the table changes otherwise. */
  lemma {:induction false} SelectionsTakeTurns(
    ts: seq<Snapshot>, ws: seq<Wish>, ids: seq<string>, rs: seq<Candidate>, cs: seq<Candidate>, k: nat)
    requires cs != [] && |rs| == |ws| == |ids| && |ts| == |rs| + 1 && ts[0].cursor < WRAP
    requires forall i | 0 <= i < |rs| ::
      Lists(ts[i].hosts, ws[i], cs) && Selects(ts[i], ws[i], ids[i], rs[i], ts[i + 1])
    requires k <= |rs|
    ensures ts[k].cursor == (ts[0].cursor + k) % WRAP
    ensures k < |rs| ==> rs[k] == cs[Position(ts[0].cursor, k, |cs|)]
  {
    hide Lists, Selects, Position;
    if k == 0 {
      NoTurn(ts[0].cursor);
    } else {
      SelectionsTakeTurns(ts, ws, ids, rs, cs, k - 1);
      SelectionPicks(ts[k - 1], ws[k - 1], ids[k - 1], rs[k - 1], ts[k - 1 + 1], cs);
      NextTurn(ts[0].cursor, k - 1);
    }
    if k < |rs| {
      SelectionPicks(ts[k], ws[k], ids[k], rs[k], ts[k + 1], cs);
      PickIsPosition(cs, ts[0].cursor, k);
    }
  }

  lemma SelectionPicks(a: Snapshot, w: Wish, freshId: string, r: Candidate, b: Snapshot, cs: seq<Candidate>)
    requires Lists(a.hosts, w, cs) && cs != [] && Selects(a, w, freshId, r, b)
    ensures r == Pick(cs, a.cursor) && b.cursor == (a.cursor + 1) % WRAP
  {
    hide Lists;
  }

  lemma PickIsPosition(cs: seq<Candidate>, cursor: nat, k: nat)
    requires cs != []
    ensures Pick(cs, (cursor + k) % WRAP) == cs[Position(cursor, k, |cs|)]
  {}

  lemma NoTurn(cursor: nat)
    requires cursor < WRAP
    ensures cursor == (cursor + 0) % WRAP
  {}

  lemma NextTurn(cursor: nat, k: nat)
    ensures ((cursor + k) % WRAP + 1) % WRAP == (cursor + (k + 1)) % WRAP
  {}

  /** n selections over an unchanged list of n candidates pick the list itself, turned to where the cursor
      was, so each candidate once: if no candidate is listed twice, exactly when they do not cross the
      wrap of the cursor or n divides its range. */
  lemma EveryCandidateGetsItsTurn(
    ts: seq<Snapshot>, ws: seq<Wish>, ids: seq<string>, rs: seq<Candidate>, cs: seq<Candidate>)
    requires cs != [] && |cs| == |rs| == |ws| == |ids| && |ts| == |rs| + 1 && ts[0].cursor < WRAP
    requires forall i | 0 <= i < |rs| ::
      Lists(ts[i].hosts, ws[i], cs) && Selects(ts[i], ws[i], ids[i], rs[i], ts[i + 1])
    ensures
      var n, c := |cs|, ts[0].cursor;
      && (c + n <= WRAP || WRAP % n == 0 ==> rs == cs[c % n..] + cs[..c % n] && multiset(rs) == multiset(cs))
      && ((forall i, j | 0 <= i < j < n :: cs[i] != cs[j]) ==>
            ((forall i, j | 0 <= i < j < n :: rs[i] != rs[j]) <==> c + n <= WRAP || WRAP % n == 0))
  {
    hide Lists, Selects, Position;
    var n, c := |cs|, ts[0].cursor;
    forall i | 0 <= i < n ensures rs[i] == cs[Position(c, i, n)] {
      SelectionsTakeTurns(ts, ws, ids, rs, cs, i);
    }
    RoundRobinIsFairUpToTheWrap(c, n);
    if c + n <= WRAP || WRAP % n == 0 {
      forall i | 0 <= i < n ensures rs[i] == (cs[c % n..] + cs[..c % n])[i] {
        NoWrapPosition(c, i, n);
        ResidueOfSum(c, n, i);
      }
      assert cs == cs[..c % n] + cs[c % n..];
    } else {
      var i: nat, j: nat :| i < j < n && Position(c, i, n) == Position(c, j, n);
    }
  }

  lemma {:induction false} OnceInADistinctList(cs: seq<Candidate>, c: Candidate)
    requires forall i, j | 0 <= i < j < |cs| :: cs[i] != cs[j]
    ensures multiset(cs)[c] == if c in cs then 1 else 0
  {
    if cs != [] {
      var front, last := cs[..|cs| - 1], cs[|cs| - 1];
      assert cs == front + [last];
      OnceInADistinctList(front, c);
    }
  }

  lemma TwiceInAList(cs: seq<Candidate>, i: nat, j: nat)
    requires i < j < |cs| && cs[i] == cs[j]
    ensures multiset(cs)[cs[i]] >= 2
  {
    assert cs == cs[..j] + [cs[j]] + cs[j + 1..];
    assert cs[i] in cs[..j];
  }

  /** Fairness of the eligible candidates themselves: while every catalog conforms and the list does not
      change, n selections over n eligible candidates pick each exactly once, if and only if they do not
      cross the wrap of the cursor or n divides its range. */
  lemma EveryEligibleCandidateIsPickedOnce(
    ts: seq<Snapshot>, ws: seq<Wish>, ids: seq<string>, rs: seq<Candidate>, cs: seq<Candidate>)
    requires cs != [] && |cs| == |rs| == |ws| == |ids| && |ts| == |rs| + 1 && ts[0].cursor < WRAP
    requires Conforming(ts[0].hosts)
    requires forall i | 0 <= i < |rs| ::
      Lists(ts[i].hosts, ws[i], cs) && Selects(ts[i], ws[i], ids[i], rs[i], ts[i + 1])
    ensures
      var n, c := |cs|, ts[0].cursor;
      (forall d | Eligible(ts[0].hosts, ws[0], d) :: multiset(rs)[d] == 1) <==>
        c + n <= 18446744073709551616 || 18446744073709551616 % n == 0
  {
    hide Lists, Selects, Eligible, Conforming, Position, Turn;
    var n, c := |cs|, ts[0].cursor;
    forall i, j | 0 <= i < j < n ensures cs[i] != cs[j] { CandidatesAreDistinct(ts[0].hosts, ws[0], cs, i, j); }
    EveryCandidateGetsItsTurn(ts, ws, ids, rs, cs);
    forall d ensures d in cs <==> Eligible(ts[0].hosts, ws[0], d) { ListedAreEligible(ts[0].hosts, ws[0], cs, d); }
    if c + n <= WRAP || WRAP % n == 0 {
      forall d | Eligible(ts[0].hosts, ws[0], d) ensures multiset(rs)[d] == 1 { OnceInADistinctList(cs, d); }
    } else {
      var i, j :| 0 <= i < j < n && rs[i] == rs[j];
      TwiceInAList(rs, i, j);
      SelectionsTakeTurns(ts, ws, ids, rs, cs, i);
      assert rs[i] in cs;
    }
  }

  lemma NoWrapPosition(cursor: nat, i: nat, n: nat)
    requires 0 < n && cursor < WRAP && i < n && (cursor + n <= WRAP || WRAP % n == 0)
    ensures Position(cursor, i, n) == (cursor + i) % n
  {
    if cursor + n > WRAP {
      if n <= WRAP {
        WrapKeepsResidue(cursor + i, n);
      } else {
        UniqueResidue(WRAP, n, 0, WRAP);
      }
    }
  }

  lemma ResidueOfSum(a: nat, n: nat, i: nat)
    requires 0 < n && i < n
    ensures (a + i) % n == if a % n + i < n then a % n + i else a % n + i - n
  {
    var q := a / n;
    assert a == q * n + a % n;
    if a % n + i < n {
      UniqueResidue(a + i, n, q, a % n + i);
    } else {
      assert a + i == q * n + n + (a % n + i - n) == (q + 1) * n + (a % n + i - n);
      UniqueResidue(a + i, n, q + 1, a % n + i - n);
    }
  }

  lemma UniqueResidue(a: nat, n: nat, q: int, r: nat)
    requires 0 < n && r < n && a == q * n + r
    ensures a % n == r
  {
    var d := q - a / n;
    assert a == (a / n) * n + a % n;
    assert d * n == a % n - r;
    assert d >= 1 ==> d * n >= n;
    assert d <= -1 ==> d * n + n <= 0;
  }

  lemma WrapKeepsResidue(a: nat, n: nat)
    requires 0 < n && WRAP % n == 0 && a < 2 * WRAP
    ensures (a % WRAP) % n == a % n
  {
    if a >= WRAP {
      var b := a - WRAP;
      var q := WRAP / n;
      assert WRAP == q * n;
      assert b == (b / n) * n + b % n;
      assert a == (b / n + q) * n + b % n;
      UniqueResidue(a, n, b / n + q, b % n);
    }
  }

  /** The last selections before the wrap take the positions just below the remainder r of the
      range, those after it start at 0 again, and the two stretches overlap. */
  lemma Repeats(cursor: nat, n: nat)
    requires 0 < n && cursor < WRAP < cursor + n && WRAP % n != 0
    ensures !NoRepeat(cursor, n)
  {
    var k := WRAP - cursor;
    if n > WRAP {
      // a list longer than the range repeats after one whole lap
      assert Position(cursor, 0, n) == Position(cursor, WRAP, n);
    } else {
      var r := WRAP % n;
      var t := if r <= n - k then r - 1 else n - k - 1;
      var s := r - 1 - t;
      var i, j := k - 1 - s, k + t;
      assert 0 <= i < j < n;
      // before the wrap
      var a := cursor + i;
      assert a == WRAP - 1 - s;
      var q := WRAP / n;
      assert WRAP == q * n + r;
      UniqueResidue(a, n, q, t);
      assert Position(cursor, i, n) == t;
      // after it
      assert (cursor + j) % WRAP == t;
      UniqueResidue(t, n, 0, t);
      assert Position(cursor, j, n) == t;
    }
  }
}
