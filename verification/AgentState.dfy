/** The agent's slots and one session over them (internal/agent/agent.go): which attempts run,
    which identifiers were ever seen, and what the catalog says is free. */
module AgentState {
  import opened Types
  import opened Protocol
  import opened Config
  import opened Discovery

  const SEEN_LIMIT := 100000

  /** A configured backend, its last discovered catalog entry and its running attempts. */
  datatype Slot = Slot(config: BackendConfig, catalog: Backend, active: int)

  datatype Reservation = Reserved(slot: nat, name: string) | Refused(code: Code)

  /** What the session does with a request: run it, refuse it with an error frame, or end. */
  datatype Verdict = Runs(at: nat, native: string) | Rejects(reason: Code) | EndsSession

  /** The running attempts on one slot. */
  function On(running: map<string, nat>, slot: nat): set<string> {
    set a | a in running && running[a] == slot
  }

  ghost predicate SlotsConform(slots: seq<Slot>) {
    && |slots| <= 64
    && (forall i | 0 <= i < |slots| :: BackendOk(slots[i].config) && FromDiscovery(slots[i].config, slots[i].catalog))
    && (forall i, j | 0 <= i < j < |slots| :: slots[i].config.id != slots[j].config.id)
  }

  /** Every slot counts exactly its running attempts, and never more than its concurrency. */
  ghost predicate Conserved(slots: seq<Slot>, running: map<string, nat>) {
    && (forall i | 0 <= i < |slots| ::
          slots[i].active == |On(running, i)| && slots[i].active <= slots[i].catalog.capacity)
    && (forall a | a in running :: running[a] < |slots|)
  }

  /** The outcome of reserve, slot by slot in configuration order from slot n on. */
  ghost function Outcome(slots: seq<Slot>, backendId: string, model: string, n: nat): Reservation
    requires n <= |slots|
    decreases |slots| - n
  {
    if n == |slots| then Refused(ModelNotAllowed)
    else if slots[n].catalog.id != backendId then Outcome(slots, backendId, model, n + 1)
    else if !slots[n].catalog.ready then Refused(BackendUnavailable)
    else if !Offers(slots[n].catalog, model) then Outcome(slots, backendId, model, n + 1)
    else if slots[n].active >= slots[n].catalog.capacity then Refused(Busy)
    else Reserved(n, NativeName(slots[n].catalog.models, model))
  }

  ghost predicate Offers(b: Backend, model: string) {
    exists i :: 0 <= i < |b.models| && b.models[i].id == model
  }

  ghost function NativeName(ms: seq<Model>, model: string): string {
    if ms == [] then "" else if ms[0].id == model then ms[0].name else NativeName(ms[1..], model)
  }

  lemma OnSnoc(running: map<string, nat>, a: string, slot: nat)
    requires a !in running
    ensures On(running[a := slot], slot) == On(running, slot) + {a} && a !in On(running, slot)
    ensures forall i: nat | i != slot :: On(running[a := slot], i) == On(running, i)
  {}

  lemma OnMinus(running: map<string, nat>, a: string)
    requires a in running
    ensures On(running - {a}, running[a]) == On(running, running[a]) - {a} && a in On(running, running[a])
    ensures forall i: nat | i != running[a] :: On(running - {a}, i) == On(running, i)
  {}

  lemma ReserveConserves(slots: seq<Slot>, running: map<string, nat>, a: string, slot: nat)
    requires SlotsConform(slots) && Conserved(slots, running) && a !in running
    requires slot < |slots| && slots[slot].active < slots[slot].catalog.capacity
    ensures
      var after := slots[slot := slots[slot].(active := slots[slot].active + 1)];
      SlotsConform(after) && Conserved(after, running[a := slot])
  {
    hide FromDiscovery, BackendOk, On;
    OnSnoc(running, a, slot);
  }

  class Session {
    var slots: seq<Slot>
    var running: map<string, nat>
    var seen: set<string>
    /** Attempts ever started in this session, in order. */
    ghost var Started: seq<string>

    ghost predicate Valid()
      reads this
    {
      && SlotsConform(slots) && Conserved(slots, running)
      && |seen| <= SEEN_LIMIT
      && (forall i, j | 0 <= i < j < |Started| :: Started[i] != Started[j])
      && (forall i | 0 <= i < |Started| :: Started[i] in seen)
      && (forall a | a in running :: a in seen)
    }

    /** A session starts after discovery, when no attempt of an earlier session is left. */
    constructor (slots: seq<Slot>)
      requires SlotsConform(slots) && forall i | 0 <= i < |slots| :: slots[i].active == 0
      ensures Valid() && this.slots == slots && running == map[] && seen == {} && Started == []
    {
      this.slots, running, seen, Started := slots, map[], {}, [];
      new;
      assert forall i | 0 <= i < |slots| :: On(running, i) == {};
    }

    /** Takes a slot for an allowed model, or says why not. bodyOk: the body is a JSON object. */
    method Reserve(backendId: string, model: string, bodyOk: bool) returns (r: Reservation)
      requires SlotsConform(slots)
      modifies this`slots
      ensures r == if bodyOk then old(Outcome(slots, backendId, model, 0)) else Refused(InvalidRequest)
      ensures r.Refused? ==> slots == old(slots)
      ensures r.Reserved? ==>
        && r.slot < |old(slots)| && old(slots)[r.slot].active < old(slots)[r.slot].catalog.capacity
        && slots == old(slots)[r.slot := old(slots)[r.slot].(active := old(slots)[r.slot].active + 1)]
    {
      hide SlotsConform;
      if !bodyOk {
        return Refused(InvalidRequest);
      }
      var i := 0;
      while i < |slots|
        invariant 0 <= i <= |slots| && slots == old(slots)
        invariant Outcome(slots, backendId, model, 0) == Outcome(slots, backendId, model, i)
      {
        var s := slots[i];
        if s.catalog.id == backendId {
          if !s.catalog.ready {
            return Refused(BackendUnavailable);
          }
          var k := 0;
          while k < |s.catalog.models|
            invariant 0 <= k <= |s.catalog.models| && slots == old(slots)
            invariant forall n | 0 <= n < k :: s.catalog.models[n].id != model
            invariant NativeName(s.catalog.models, model) == NativeName(s.catalog.models[k..], model)
          {
            if s.catalog.models[k].id == model {
              if s.active >= s.catalog.capacity {
                return Refused(Busy);
              }
              slots := slots[i := s.(active := s.active + 1)];
              return Reserved(i, s.catalog.models[k].name);
            }
            k := k + 1;
          }
        }
        i := i + 1;
      }
      return Refused(ModelNotAllowed);
    }

    /** A request frame. An identifier seen before, or one too many, ends the session. */
    method OnRequest(attemptId: string, backendId: string, model: string, bodyOk: bool) returns (v: Verdict)
      requires Valid()
      modifies this
      ensures Valid()
      ensures v.EndsSession? <==> attemptId in old(seen) || |old(seen)| == 100000
      ensures v.EndsSession? ==> seen == old(seen)
      ensures !v.EndsSession? ==> seen == old(seen) + {attemptId}
      ensures v.Runs? ==> model == backendId + "/" + v.native
      ensures !v.EndsSession? && !bodyOk ==> v == Rejects(InvalidRequest)
      ensures !v.EndsSession? && bodyOk ==>
        old(Justified(slots, backendId, model, 0, if v.Runs? then Reserved(v.at, v.native) else Refused(v.reason)))
      ensures v.Runs? ==>
        && running == old(running)[attemptId := v.at] && Started == old(Started) + [attemptId]
        && v.at < |old(slots)|
        && slots == old(slots)[v.at := old(slots)[v.at].(active := old(slots)[v.at].active + 1)]
      ensures !v.Runs? ==> running == old(running) && slots == old(slots) && Started == old(Started)
      ensures v.Rejects? && v.reason == Busy ==>
        exists i ::
          0 <= i < |slots| && slots[i].catalog.id == backendId && |On(running, i)| == slots[i].catalog.capacity
    {
      hide FromDiscovery, BackendOk, Outcome, SlotsConform, Conserved, On;
      if attemptId in seen || |seen| >= SEEN_LIMIT {
        return EndsSession;
      }
      seen := seen + {attemptId};
      BusyMeansFull(slots, running, backendId, model);
      OutcomeIsJustified(slots, backendId, model, 0);
      NativeNameCompletesId(slots, backendId, model);
      var r := Reserve(backendId, model, bodyOk);
      match r {
        case Refused(code) =>
          return Rejects(code);
        case Reserved(slot, name) =>
          ReserveConserves(old(slots), running, attemptId, slot);
          running := running[attemptId := slot];
          Started := Started + [attemptId];
          return Runs(slot, name);
      }
    }

    /** The job goroutine gives its slot back, and only then sends its terminal frame. */
    method Release(attemptId: string)
      requires Valid() && attemptId in running
      modifies this
      ensures Valid() && running == old(running) - {attemptId}
      ensures
        var i := old(running)[attemptId];
        && i < |old(slots)| && slots == old(slots)[i := old(slots)[i].(active := old(slots)[i].active - 1)]
      ensures seen == old(seen) && Started == old(Started)
    {
      hide FromDiscovery, BackendOk;
      var slot := running[attemptId];
      OnMinus(running, attemptId);
      slots := slots[slot := slots[slot].(active := slots[slot].active - 1)];
      running := running - {attemptId};
    }

    /** Rediscovery replaces one slot's catalog entry and leaves the counts alone. */
    method Rediscover(slot: nat, b: Backend)
      requires Valid() && slot < |slots| && FromDiscovery(slots[slot].config, b)
      modifies this`slots
      ensures Valid() && slots == old(slots)[slot := old(slots)[slot].(catalog := b)]
    {
      slots := slots[slot := slots[slot].(catalog := b)];
    }

    /** What the agent advertises always passes the coordinator's validation. */
    method Catalog() returns (bs: seq<Backend>)
      requires Valid()
      ensures CatalogConforms(bs)
      ensures |bs| == |slots|
      ensures forall i | 0 <= i < |bs| ::
        bs[i] == slots[i].catalog.(available := slots[i].catalog.capacity - |On(running, i)|)
    {
      hide FromDiscovery, BackendOk, BackendConforms;
      bs := [];
      var i := 0;
      while i < |slots|
        invariant 0 <= i <= |slots| && |bs| == i
        invariant forall k | 0 <= k < i ::
          bs[k] == slots[k].catalog.(available := slots[k].catalog.capacity - |On(running, k)|)
          && bs[k].id == slots[k].config.id && BackendConforms(bs[k])
      {
        var b := slots[i].catalog;
        HonestBackendConforms(slots[i].config, b, slots[i].active);
        KeepsId(slots[i].config, b);
        b := b.(available := b.capacity - slots[i].active);
        bs := bs + [b];
        i := i + 1;
      }
    }

    /** A session returns only after every job goroutine has finished; then every slot is free. */
    lemma NothingRunsAfterReturn()
      requires Valid() && running == map[]
      ensures forall i | 0 <= i < |slots| :: slots[i].active == 0
    {
      assert forall i | 0 <= i < |slots| :: On(running, i) == {};
    }
  }

  lemma KeepsId(c: BackendConfig, b: Backend)
    requires FromDiscovery(c, b)
    ensures b.id == c.id
  {}

  // ---- from configuration to catalog ----

  /** The slots of an agent with an accepted configuration, once discovery has asked every backend;
      a listing is None when its backend did not answer. */
  method DiscoverSlots(configs: seq<BackendConfig>, listings: seq<Option<seq<Listed>>>) returns (slots: seq<Slot>)
    requires BackendsOk(configs) && |listings| == |configs|
    ensures SlotsConform(slots) && |slots| == |configs|
    ensures forall i | 0 <= i < |slots| ::
      && slots[i].config == configs[i] && slots[i].active == 0
      && (listings[i].Some? ==> Discovered(configs[i], false, listings[i].value, slots[i].catalog.models))
      && (listings[i].None? ==> slots[i].catalog == Unavailable(configs[i]))
  {
    hide FromDiscovery, Discovered, BackendOk, Total;
    slots := [];
    var i := 0;
    while i < |configs|
      invariant 0 <= i <= |configs| && |slots| == i
      invariant forall k | 0 <= k < i ::
        && slots[k].config == configs[k] && slots[k].active == 0
        && FromDiscovery(configs[k], slots[k].catalog)
        && (listings[k].Some? ==> Discovered(configs[k], false, listings[k].value, slots[k].catalog.models))
        && (listings[k].None? ==> slots[k].catalog == Unavailable(configs[k]))
    {
      var b := Discover(configs[i], false, listings[i]);
      slots := slots + [Slot(configs[i], b, 0)];
      i := i + 1;
    }
  }

  /** From any accepted configuration and whatever the backends list, the agent's first catalog passes the
      coordinator's validation, and it offers each backend with all of its slots free. */
  method DiscoverCatalog(configs: seq<BackendConfig>, listings: seq<Option<seq<Listed>>>) returns (bs: seq<Backend>)
    requires BackendsOk(configs) && |listings| == |configs|
    ensures CatalogConforms(bs) && |bs| == |configs|
    ensures forall i | 0 <= i < |bs| ::
      && bs[i].id == configs[i].id && bs[i].capacity == bs[i].available == configs[i].concurrency
      && (listings[i].Some? ==> Discovered(configs[i], false, listings[i].value, bs[i].models))
  {
    hide Discovered, BackendOk, BackendsOk, CatalogConforms;
    var slots := DiscoverSlots(configs, listings);
    var session := new Session(slots);
    bs := session.Catalog();
    forall i | 0 <= i < |slots| ensures On(session.running, i) == {} {}
  }

  /** In any later state, however many attempts run, it still does. */
  lemma AcceptedConfigurationsAdvertiseConformingCatalogs(
    configs: seq<BackendConfig>, entries: seq<Backend>, active: seq<int>, catalog: seq<Backend>)
    requires BackendsOk(configs) && |entries| == |active| == |catalog| == |configs|
    requires forall i | 0 <= i < |configs| ::
      && FromDiscovery(configs[i], entries[i]) && 0 <= active[i] <= entries[i].capacity
      && catalog[i] == entries[i].(available := entries[i].capacity - active[i])
    ensures CatalogConforms(catalog)
  {
    hide FromDiscovery, BackendOk, BackendConforms, Total;
    forall i | 0 <= i < |catalog| ensures BackendConforms(catalog[i]) && catalog[i].id == configs[i].id {
      HonestBackendConforms(configs[i], entries[i], active[i]);
      KeepsId(configs[i], entries[i]);
    }
  }

  /** Busy is answered only when the named backend runs as many attempts as it has capacity for. */
  lemma BusyMeansFull(slots: seq<Slot>, running: map<string, nat>, backendId: string, model: string)
    requires Conserved(slots, running)
    ensures Outcome(slots, backendId, model, 0) == Refused(Busy) ==>
      exists i :: 0 <= i < |slots| && slots[i].catalog.id == backendId && |On(running, i)| == slots[i].catalog.capacity
  {
    hide Outcome, On;
    BusyIsBlocked(slots, backendId, model, 0);
  }

  lemma {:induction false} BusyIsBlocked(slots: seq<Slot>, backendId: string, model: string, n: nat)
    requires n <= |slots|
    ensures Outcome(slots, backendId, model, n) == Refused(Busy) ==>
      exists i :: n <= i < |slots| && slots[i].catalog.id == backendId && slots[i].active >= slots[i].catalog.capacity
    decreases |slots| - n
  {
    hide Offers, NativeName;
    if n < |slots| {
      BusyIsBlocked(slots, backendId, model, n + 1);
    }
  }

  /** What each outcome says about the slots. Backend identifiers being distinct, the cases exclude
      one another, so each holds exactly when its outcome is returned. */
  ghost predicate Justified(slots: seq<Slot>, backendId: string, model: string, n: nat, r: Reservation) {
    match r
    case Reserved(i, name) =>
      && n <= i < |slots| && Named(slots[i], backendId) && slots[i].catalog.ready
      && slots[i].active < slots[i].catalog.capacity
      && exists k :: 0 <= k < |slots[i].catalog.models| && slots[i].catalog.models[k].id == model
                     && slots[i].catalog.models[k].name == name
    case Refused(code) =>
      if code == BackendUnavailable then
        exists i :: n <= i < |slots| && Named(slots[i], backendId) && !slots[i].catalog.ready
      else if code == Busy then
        exists i :: n <= i < |slots| && Named(slots[i], backendId) && slots[i].catalog.ready
                    && Offers(slots[i].catalog, model) && slots[i].active >= slots[i].catalog.capacity
      else
        && code == ModelNotAllowed
        && forall i | n <= i < |slots| && Named(slots[i], backendId) ::
             slots[i].catalog.ready && !Offers(slots[i].catalog, model)
  }

  predicate Named(s: Slot, backendId: string) {
    s.catalog.id == backendId
  }

  lemma {:induction false} OutcomeIsJustified(slots: seq<Slot>, backendId: string, model: string, n: nat)
    requires n <= |slots|
    ensures Justified(slots, backendId, model, n, Outcome(slots, backendId, model, n))
    decreases |slots| - n
  {
    hide NativeName, Offers;
    if n < |slots| {
      OutcomeIsJustified(slots, backendId, model, n + 1);
      if Offers(slots[n].catalog, model) {
        NativeNameIsListed(slots[n].catalog, model);
      }
    }
  }

  lemma NativeNameIsListed(b: Backend, model: string)
    requires Offers(b, model)
    ensures exists k ::
      0 <= k < |b.models| && b.models[k].id == model && b.models[k].name == NativeName(b.models, model)
  {
    var k :| 0 <= k < |b.models| && b.models[k].id == model;
    NativeNameAt(b.models, model, k);
  }

  lemma {:induction false} NativeNameAt(ms: seq<Model>, model: string, k: nat)
    requires k < |ms| && ms[k].id == model
    ensures exists i :: 0 <= i < |ms| && ms[i].id == model && ms[i].name == NativeName(ms, model)
  {
    if ms[0].id != model {
      NativeNameAt(ms[1..], model, k - 1);
      var i :| 0 <= i < |ms[1..]| && ms[1..][i].id == model && ms[1..][i].name == NativeName(ms[1..], model);
      assert ms[i + 1].id == model;
    }
  }

  /** The native name handed to the backend is the public identifier without its backend prefix. */
  lemma NativeNameCompletesId(slots: seq<Slot>, backendId: string, model: string)
    requires SlotsConform(slots)
    ensures Outcome(slots, backendId, model, 0).Reserved? ==>
      model == backendId + "/" + Outcome(slots, backendId, model, 0).name
  {
    hide FromDiscovery, BackendOk, Outcome, Offers;
    OutcomeIsJustified(slots, backendId, model, 0);
    var r := Outcome(slots, backendId, model, 0);
    if r.Reserved? {
      DiscoveredModelsConform(slots[r.slot].config, slots[r.slot].catalog);
    }
  }
}
