/** Steps that a Device takes for one request alone: the store's own, searches,
    and the request's. They bring everything prepared to disk, and find the
    Object under a name. */
module DevicePaths {
  import opened Base
  import opened Engine
  import opened Journals
  import opened Objects
  import opened Device
  import opened DeviceSpec
  import opened DeviceReads
  import opened DeviceSteps
  import opened DeviceDecide
  import opened DeviceRuns
  import opened DeviceAudit
  import opened DeviceCuts
  import opened DeviceDurable
  import opened DeviceGets

  /** No client does anything in the step but the one that waits for the request. */
  predicate ByItself(rid: nat, step: Step) {
    match step
    case LandStep => true
    case CommitStep(_, _) => true
    case LoadStep(_) => true
    case FoundStep(_) => true
    case AdvanceStep(r, _) => r == rid
    case _ => false
  }

  /** The steps lead from one state to the other, with only the request at work. */
  ghost predicate Leads(c: Config, rid: nat, s: Sys, path: seq<Step>, t: Sys)
    decreases |path|
  {
    if path == [] then s == t
    else Enabled(c, s, path[0]) && ByItself(rid, path[0]) && Leads(c, rid, Do(c, s, path[0]), path[1..], t)
  }

  lemma {:induction false} LeadsOn(c: Config, rid: nat, s: Sys, path: seq<Step>, t: Sys, rest: seq<Step>, u: Sys)
    requires Leads(c, rid, s, path, t) && Leads(c, rid, t, rest, u)
    ensures Leads(c, rid, s, path + rest, u)
    decreases |path|
  {
    hide Enabled, Do;
    if path == [] {
      assert path + rest == rest;
    } else {
      LeadsOn(c, rid, Do(c, s, path[0]), path[1..], t, rest, u);
      assert (path + rest)[1..] == path[1..] + rest;
    }
  }

  lemma OneLeads(c: Config, origin: Names, rid: nat, s: Sys, step: Step)
    requires Inv(c, origin, s) && Enabled(c, s, step) && ByItself(rid, step)
    ensures Leads(c, rid, s, [step], Do(c, s, step)) && Inv(c, origin, Do(c, s, step))
  {
    hide Inv, Enabled, Do;
    StepOk(c, origin, s, step);
    assert [step][1..] == [];
  }

  lemma {:induction false} LeadsKeeps(c: Config, origin: Names, rid: nat, s: Sys, path: seq<Step>, t: Sys)
    requires Inv(c, origin, s) && Leads(c, rid, s, path, t)
    ensures Inv(c, origin, t)
    decreases |path|
  {
    hide Inv, Enabled, Do;
    if path != [] {
      StepOk(c, origin, s, path[0]);
      LeadsKeeps(c, origin, rid, Do(c, s, path[0]), path[1..], t);
    }
  }

  lemma {:induction false} LeadsEnded(c: Config, origin: Names, rid: nat, s: Sys, path: seq<Step>, t: Sys)
    requires Inv(c, origin, s) && Ended(s) && Leads(c, rid, s, path, t)
    ensures Ended(t)
    decreases |path|
  {
    hide Inv, Enabled, Do, Ended;
    if path != [] {
      StepOk(c, origin, s, path[0]);
      StepEnded(c, origin, s, path[0]);
      LeadsEnded(c, origin, rid, Do(c, s, path[0]), path[1..], t);
    }
  }

  lemma {:induction false} LeadsOwn(c: Config, rid: nat, s: Sys, path: seq<Step>, t: Sys)
    requires Leads(c, rid, s, path, t)
    ensures forall step :: step in path ==> ByItself(rid, step)
    decreases |path|
  {
    hide Enabled, Do;
    if path != [] { LeadsOwn(c, rid, Do(c, s, path[0]), path[1..], t); }
  }

  /** The other requests stay as they are, and there are no new ones. */
  ghost predicate Only(s: Sys, t: Sys, rid: nat) {
    t.reqs.Keys == s.reqs.Keys + {rid} && forall r :: r in s.reqs && r != rid ==> t.reqs[r] == s.reqs[r]
  }

  lemma StepOnly(c: Config, origin: Names, rid: nat, s: Sys, step: Step)
    requires Inv(c, origin, s) && Enabled(c, s, step) && ByItself(rid, step) && rid in s.reqs
    ensures Only(s, Do(c, s, step), rid)
  {
    hide Inv, WellFormed, Advance, Separate, Waiting, Deciding;
    if step.AdvanceStep? {
      if Deciding(c, s, rid).Some? {
        DecideDecides(c, origin, s, rid, step.estimate);
        hide Fold, Reply, Matches;
      } else {
        AdvanceShape(c, origin, s, rid, step.estimate);
      }
    }
  }

  lemma {:induction false} LeadsOnly(c: Config, origin: Names, rid: nat, s: Sys, path: seq<Step>, t: Sys)
    requires Inv(c, origin, s) && Leads(c, rid, s, path, t) && rid in s.reqs
    ensures Only(s, t, rid)
    decreases |path|
  {
    hide Inv, Enabled, Do;
    if path != [] {
      StepOk(c, origin, s, path[0]);
      StepOnly(c, origin, rid, s, path[0]);
      LeadsOnly(c, origin, rid, Do(c, s, path[0]), path[1..], t);
    }
  }

  /** A run goes on along any such steps. */
  lemma {:induction false} Follow(c: Config, origin: Names, rid: nat, states: seq<Sys>, steps: seq<Step>, path: seq<Step>, t: Sys)
    returns (more: seq<Sys>)
    requires Run(c, origin, states, steps) && |states| > 0 && Leads(c, rid, Last(states), path, t)
    ensures Run(c, origin, more, steps + path) && states <= more && |more| == |states| + |path| && Last(more) == t
    decreases |path|
  {
    hide Run, Enabled, Do;
    if path == [] {
      more := states;
      assert steps + path == steps;
    } else {
      var s := Do(c, Last(states), path[0]);
      RunOn(c, origin, states, steps, path[0]);
      more := Follow(c, origin, rid, states + [s], steps + [path[0]], path[1..], t);
      assert steps + [path[0]] + path[1..] == steps + path;
      assert states <= states + [s];
    }
  }

  // ----- everything prepared reaches the disk -----

  /** The queue ends where a transaction does. */
  ghost predicate Ended(s: Sys) { Length(s.journal) == 0 || IsCut(s, Length(s.journal)) }

  lemma JustEnded(t: Sys)
    requires |t.cuts| > 0 && Last(t.cuts).end == Length(t.journal)
    ensures Ended(t)
  {
    assert Last(t.cuts) in t.cuts;
  }

  lemma EndedStill(s: Sys, t: Sys)
    requires Ended(s) && t.journal.ops == s.journal.ops && s.cuts <= t.cuts
    ensures Ended(t)
  {
    if Length(s.journal) != 0 {
      var cut :| cut in s.cuts && cut.end == Length(s.journal);
      assert cut in t.cuts;
    }
  }

  lemma HandEnded(s: Sys, rid: nat, id: nat, prev: nat, ts: nat, header: Bytes, e: Event)
    requires rid in s.reqs && id in s.objs && prev in s.objs
    ensures Ended(HandName(s, rid, id, prev, ts, header, e))
  {
    hide Marked, PutJournal, PutNext;
    var t := HandName(s, rid, id, prev, ts, header, e);
    JustEnded(t);
  }

  lemma PostEnded(c: Config, s: Sys, rid: nat, prev: nat, got: Option<Metadata.Got>)
    requires rid in s.reqs && s.reqs[rid].task.Post? && prev in s.objs && Ended(s)
    ensures Ended(DecidePost(c, s, rid, prev, got))
  {
    hide Marked, Metadata.Post;
    var t := DecidePost(c, s, rid, prev, got);
    if t.cuts == s.cuts { EndedStill(s, t); } else { JustEnded(t); }
  }

  lemma DecideEnded(c: Config, origin: Names, s: Sys, rid: nat, estimate: nat)
    requires Inv(c, origin, s) && Enabled(c, s, AdvanceStep(rid, estimate)) && Deciding(c, s, rid).Some? && Ended(s)
    ensures Ended(Advance(c, s, rid, estimate))
  {
    hide Inv, WellFormed, HandName, DecidePost, Ended, Separate, StepReading, StepServing, StepOpening, Deciding;
    var (prev, got) := Deciding(c, s, rid).value;
    DecidingSees(c, origin, s, rid);
    SeesKnown(c, origin, s, s.reqs[rid].name, prev, got);
    var r := s.reqs[rid];
    match r.task
    case Put(id, ts, meta) =>
      DevicePuts.PutsKnown(c, origin, s, rid);
      var inode := s.objs[id].inode;
      var data := if inode in s.journal.recs then s.journal.recs[inode].data else [];
      HandEnded(s, rid, id, prev, ts, c.encode(Metadata.Put(got, meta)), HandedName(rid, r.name, ts, false, data, meta));
    case Delete(ts, tombstone) =>
      var t := s.(journal := Registered(s.journal, s.next, r.name, estimate),
                  objs := s.objs[s.next := TombstoneObj(s, r.name, estimate)], next := s.next + 1);
      HandEnded(t, rid, s.next, prev, ts, c.encode(Metadata.Delete(got, ts, tombstone)),
                HandedName(rid, r.name, ts, true, [], Metadata.TombstoneHeaders(ts, tombstone)));
    case Post(_) => PostEnded(c, s, rid, prev, got);
  }

  lemma StepEnded(c: Config, origin: Names, s: Sys, step: Step)
    requires Inv(c, origin, s) && Enabled(c, s, step) && Ended(s)
    ensures Ended(Do(c, s, step))
  {
    hide Inv, WellFormed, Advance, Separate, Waiting, Deciding, Wrote, Prepare, RemoveOps, Ended, SearchLoad;
    var t := Do(c, s, step);
    match step
    case AdvanceStep(rid, estimate) =>
      if Deciding(c, s, rid).Some? {
        DecideEnded(c, origin, s, rid, estimate);
      } else {
        AdvanceJournal(c, s, rid, estimate);
        AdvancePrepares(c, s, rid, estimate);
        EndedStill(s, t);
      }
    case WriteStep(id, bytes) => JustEnded(t);
    case ReleaseStep(id) => if t.cuts == s.cuts { EndedStill(s, t); } else { JustEnded(t); }
    case LoadStep(name) => LoadStill(s, name); EndedStill(s, t);
    case _ => EndedStill(s, t);
  }

  lemma LoadStill(s: Sys, name: string)
    requires WellFormed(s) && name in s.names
    ensures var t := SearchLoad(s, name); t == s.(objs := t.objs, names := t.names)
  {
  }

  lemma {:induction false} RunEnded(c: Config, origin: Names, states: seq<Sys>, steps: seq<Step>, n: nat)
    requires Run(c, origin, states, steps) && n < |states|
    ensures Ended(states[n])
    decreases n
  {
    hide Inv, Initial, Enabled, Do, Ended;
    if n == 0 {
      InitialEnded(c, origin, states[0]);
    } else {
      RunEnded(c, origin, states, steps, n - 1);
      RunKeeps(c, origin, states, steps, n - 1);
      StepEnded(c, origin, states[n - 1], steps[n - 1]);
    }
  }

  lemma InitialEnded(c: Config, origin: Names, s: Sys)
    requires Initial(c, origin, s)
    ensures Ended(s)
  {
    hide Recovers, Swept, Shows;
  }

  lemma {:induction false} LandAll(c: Config, origin: Names, rid: nat, s: Sys) returns (path: seq<Step>)
    requires Inv(c, origin, s)
    ensures |s.journal.stores| > 0 && Leads(c, rid, s, path, s.(applied := |s.journal.stores| - 1))
    decreases |s.journal.stores| - s.applied
  {
    hide Inv, WellFormed, Leads;
    InvBasics(c, origin, s);
    var all := s.(applied := |s.journal.stores| - 1);
    if s.applied == |s.journal.stores| - 1 {
      path := [];
      Already(c, rid, s);
    } else {
      NothingDangles(c, origin, s);
      OneLeads(c, origin, rid, s, LandStep);
      var rest := LandAll(c, origin, rid, Land(s));
      LeadsOn(c, rid, s, [LandStep], Land(s), rest, all);
      path := [LandStep] + rest;
    }
  }

  lemma Already(c: Config, rid: nat, s: Sys)
    ensures Leads(c, rid, s, [], s)
  {
  }

  lemma DurableApplied(c: Config, origin: Names, s: Sys, collection: nat)
    requires Inv(c, origin, s) && collection in s.durable
    ensures s.durable[collection] <= s.applied
  {
  }

  /** Everything has landed, and what concerns the name has been committed. */
  ghost predicate Calm(c: Config, s: Sys, name: string) {
    s.applied < |s.journal.stores| && Length(s.journal) <= DurableOf(c, s, name)
  }

  /** The queue lands and is committed. */
  lemma Settles(c: Config, origin: Names, rid: nat, s: Sys, name: string) returns (path: seq<Step>, t: Sys)
    requires Inv(c, origin, s) && Ended(s)
    ensures Leads(c, rid, s, path, t) && Inv(c, origin, t)
    ensures t == s.(applied := t.applied, durable := t.durable) && Calm(c, t, name)
  {
    hide Inv, WellFormed, Leads;
    InvBasics(c, origin, s);
    path := LandAll(c, origin, rid, s);
    var all := s.(applied := |s.journal.stores| - 1);
    LeadsKeeps(c, origin, rid, s, path, all);
    if Length(s.journal) == 0 {
      t := all;
    } else {
      NothingDangles(c, origin, all);
      var commit := CommitStep(c.collection(name), Length(s.journal));
      if c.collection(name) in all.durable { DurableApplied(c, origin, all, c.collection(name)); }
      OneLeads(c, origin, rid, all, commit);
      t := Do(c, all, commit);
      LeadsOn(c, rid, s, path, all, [commit], t);
      path := path + [commit];
    }
  }

  // ----- a name is looked up -----

  ghost predicate Looked(s: Sys, t: Sys) {
    && t == s.(objs := t.objs, names := t.names, next := t.next) && s.next <= t.next
    && (forall id :: id in s.objs && s.objs[id].stat.state != PreSearch ==> id in t.objs && t.objs[id] == s.objs[id])
  }

  lemma LooksUp(c: Config, origin: Names, rid: nat, s: Sys) returns (path: seq<Step>, t: Sys)
    requires Inv(c, origin, s) && rid in s.reqs && s.reqs[rid].pc == Opening
    requires s.reqs[rid].name in s.names && s.names[s.reqs[rid].name].Searching?
    ensures Leads(c, rid, s, path, t) && Inv(c, origin, t) && Looked(s, t)
    ensures s.reqs[rid].name in t.names && t.names[s.reqs[rid].name].Found?
  {
    hide Inv, WellFormed, Leads;
    var name := s.reqs[rid].name;
    path, t := [], s;
    Already(c, rid, s);
    if !s.names[name].loaded {
      NothingDangles(c, origin, s);
      OneLeads(c, origin, rid, s, LoadStep(name));
      Loads(c, origin, s, name);
      path, t := [LoadStep(name)], Do(c, s, LoadStep(name));
    }
    NothingDangles(c, origin, t);
    OneLeads(c, origin, rid, t, FoundStep(name));
    LeadsOn(c, rid, s, path, t, [FoundStep(name)], Do(c, t, FoundStep(name)));
    path, t := path + [FoundStep(name)], Do(c, t, FoundStep(name));
  }

  lemma Loads(c: Config, origin: Names, s: Sys, name: string)
    requires Inv(c, origin, s) && WellFormed(s) && name in s.names && s.names[name].Searching? && !s.names[name].loaded
    ensures Looked(s, SearchLoad(s, name)) && SearchLoad(s, name).names == s.names[name := Searching(s.names[name].id, true)]
  {
    hide Inv, WellFormed, Visible;
    StillSearching(c, origin, s, name);
  }

  lemma StillSearching(c: Config, origin: Names, s: Sys, name: string)
    requires Inv(c, origin, s) && name in s.names && s.names[name].Searching? && !s.names[name].loaded
    ensures s.names[name].id in s.objs && s.objs[s.names[name].id].stat.state == PreSearch
  {
    assert SlotFine(s, name);
  }

  /** Whoever asks for a name finds, or is the first to search, the Object under it. */
  lemma Finds(c: Config, origin: Names, rid: nat, s: Sys) returns (path: seq<Step>, t: Sys)
    requires Inv(c, origin, s) && rid in s.reqs && s.reqs[rid].pc == Opening
    ensures Leads(c, rid, s, path, t) && Inv(c, origin, t) && Looked(s, t)
    ensures s.reqs[rid].name in t.names && t.names[s.reqs[rid].name].Found?
  {
    hide Inv, WellFormed, Leads;
    var name := s.reqs[rid].name;
    if name in s.names && s.names[name].Found? {
      path, t := [], s;
      Already(c, rid, s);
    } else if name in s.names {
      path, t := LooksUp(c, origin, rid, s);
    } else {
      NothingDangles(c, origin, s);
      var search := AdvanceStep(rid, 0);
      assert Deciding(c, s, rid) == None;
      OneLeads(c, origin, rid, s, search);
      var u := StartSearch(s, name);
      assert Do(c, s, search) == u;
      NextIsNew(c, origin, s);
      path, t := LooksUp(c, origin, rid, u);
      LeadsOn(c, rid, s, [search], u, path, t);
      path := [search] + path;
    }
  }
}
