/** Crashes. Each collection keeps some prefix of its own transactions; the
    prefixes of different collections need not match. What comes up again is a
    store the Device can be mounted on, and every name shows what a prefix of
    the decisions, with every confirmed one in it, made of it. */
module Crash {
  import opened Base
  import opened Engine
  import opened Journals
  import opened Objects
  import opened Device
  import opened DeviceSpec
  import opened DeviceReads
  import opened DeviceSteps
  import opened DeviceAudit
  import opened DeviceCuts
  import opened DeviceDurable
  import opened DeviceTheorems

  /** Per collection, how many operations of the common order it keeps its share of. */
  type Keep = nat -> nat

  function KeptOf(c: Config, keep: Keep, name: string): nat { keep(c.collection(name)) }

  /** The operations up to `m` are applied, but for those a collection lost. */
  function Survives(c: Config, keep: Keep, j: Journal, m: nat): Store
    requires |j.stores| > 0 && m <= |j.ops|
  {
    if m == 0 then j.stores[0]
    else
      var store, op := Survives(c, keep, j, m - 1), j.ops[m - 1];
      if m - 1 < KeptOf(c, keep, op.at.name) && Applicable(store, op) then Apply(store, op) else store
  }

  function Crashed(c: Config, keep: Keep, j: Journal): Store
    requires |j.stores| > 0
  {
    Survives(c, keep, j, |j.ops|)
  }

  // ----- collections do not interfere -----

  /** A transaction never moves an entry to another name. */
  lemma RenamesKeepNames(j: Journal, k: nat)
    requires MicroInv(j) && k < |j.ops| && j.ops[k].Rename?
    ensures j.ops[k].to.name == j.ops[k].at.name
  {
    var op := j.ops[k];
    assert j.stores[k + 1] == Apply(j.stores[k], op);
    assert SoundStore(j.stores[k], j.recs, k) && SoundStore(j.stores[k + 1], j.recs, k + 1);
    assert Sound(op.at, j.stores[k][op.at], j.recs, k);
    assert Sound(op.to, j.stores[k + 1][op.to], j.recs, k + 1);
  }

  predicate Agree(a: Store, b: Store, at: Address) {
    (at in a <==> at in b) && (at in a ==> a[at] == b[at])
  }

  lemma AgreeApplies(a: Store, b: Store, op: Op)
    requires Agree(a, b, op.at) && (op.Rename? ==> Agree(a, b, op.to)) && Applicable(b, op)
    ensures Applicable(a, op)
    ensures Agree(Apply(a, op), Apply(b, op), op.at)
    ensures op.Rename? ==> Agree(Apply(a, op), Apply(b, op), op.to)
  {
  }

  lemma OtherAddress(store: Store, op: Op, at: Address)
    requires Applicable(store, op) && at.name != op.at.name && (op.Rename? ==> op.to.name == op.at.name)
    ensures Agree(Apply(store, op), store, at)
  {
  }

  lemma SameAddress(a: Store, b: Store, op: Op, at: Address)
    requires Applicable(a, op) && Applicable(b, op) && Agree(a, b, at) && Agree(a, b, op.at)
    ensures Agree(Apply(a, op), Apply(b, op), at)
  {
  }

  lemma ReplayedAt(j: Journal, k: nat)
    requires MicroInv(j) && k < |j.ops|
    ensures |j.stores| == |j.ops| + 1 && Applicable(j.stores[k], j.ops[k]) && j.stores[k + 1] == Apply(j.stores[k], j.ops[k])
    ensures j.ops[k].Rename? ==> j.ops[k].to.name == j.ops[k].at.name
  {
    if j.ops[k].Rename? { RenamesKeepNames(j, k); }
  }

  /** A name sees only its own collection's prefix: at its addresses the crashed
      store is the store as that many operations left it. */
  lemma {:induction false} Survivors(c: Config, keep: Keep, j: Journal, m: nat, at: Address)
    requires MicroInv(j) && |j.stores| == |j.ops| + 1 && m <= |j.ops|
    ensures Agree(Survives(c, keep, j, m), j.stores[Min(m, KeptOf(c, keep, at.name))], at)
    decreases m
  {
    hide MicroInv, Agree, Applicable, Apply;
    if m == 0 {
      AgreeSelf(j.stores[0], at);
    } else {
      var op, store := j.ops[m - 1], Survives(c, keep, j, m - 1);
      ReplayedAt(j, m - 1);
      Survivors(c, keep, j, m - 1, at);
      if m - 1 < KeptOf(c, keep, op.at.name) {
        Survivors(c, keep, j, m - 1, op.at);
        if op.Rename? { Survivors(c, keep, j, m - 1, op.to); }
        AgreeApplies(store, j.stores[m - 1], op);
        if at.name == op.at.name {
          SameAddress(store, j.stores[m - 1], op, at);
        } else {
          OtherAddress(store, op, at);
        }
      }
      if at.name != op.at.name {
        OtherAddress(j.stores[m - 1], op, at);
        AgreeTrans(Survives(c, keep, j, m), store, j.stores[m - 1], j.stores[m], j.stores[Min(m - 1, KeptOf(c, keep, at.name))], at);
      }
    }
  }

  lemma AgreeSelf(a: Store, at: Address)
    ensures Agree(a, a, at)
  {
  }

  lemma AgreeTrans(now: Store, was: Store, before: Store, after: Store, seen: Store, at: Address)
    requires (now == was || Agree(now, was, at)) && Agree(was, seen, at) && Agree(after, before, at)
    ensures Agree(now, seen, at) && (seen == before ==> Agree(now, after, at))
  {
  }

  // ----- what a crash leaves -----

  /** Whole transactions only, and at least what is known to be durable. */
  ghost predicate CanKeep(s: Sys, keep: Keep) {
    && (forall n :: keep(n) == 0 || IsCut(s, keep(n)))
    && (forall n :: n in s.durable ==> s.durable[n] <= keep(n))
  }

  ghost predicate CutOf(s: Sys, end: nat, cut: Cut) { cut.end == end && (cut in s.cuts || cut == START) }

  lemma KeptCut(c: Config, origin: Names, s: Sys, keep: Keep, n: nat) returns (cut: Cut)
    requires CutsOk(c, origin, s) && CanKeep(s, keep)
    ensures CutOf(s, keep(n), cut) && CutFine(c, origin, s, cut)
  {
    hide CutFine;
    if keep(n) == 0 {
      cut := START;
    } else {
      assert IsCut(s, keep(n));
      cut :| cut in s.cuts && cut.end == keep(n);
    }
  }

  /** The crashed store at a name's addresses. */
  lemma CrashedAt(c: Config, origin: Names, s: Sys, keep: Keep, at: Address) returns (cut: Cut)
    requires Inv(c, origin, s) && CutsOk(c, origin, s) && CanKeep(s, keep)
    ensures CutOf(s, KeptOf(c, keep, at.name), cut) && CutFine(c, origin, s, cut)
    ensures |s.journal.stores| > 0 && cut.end < |s.journal.stores| && Agree(Crashed(c, keep, s.journal), s.journal.stores[cut.end], at)
  {
    hide Inv, CutsOk, MicroInv, JournalInv, Fold, Shows, TidyAddresses, Survives;
    InvBasics(c, origin, s);
    cut := KeptCut(c, origin, s, keep, c.collection(at.name));
    Survivors(c, keep, s.journal, |s.journal.ops|, at);
  }

  /** The decision's request has been told Done. */
  predicate Confirmed(s: Sys, i: nat)
    requires i < |s.decided|
  {
    s.decided[i].rid in s.reqs && s.reqs[s.decided[i].rid].pc == Finished(Done)
  }

  lemma ConfirmedIsKept(c: Config, origin: Names, s: Sys, keep: Keep, name: string, cut: Cut, i: nat)
    requires Sane(c, origin, s) && CanKeep(s, keep) && CutOf(s, KeptOf(c, keep, name), cut)
    requires i < |s.decided| && s.decided[i].name == name && Confirmed(s, i)
    ensures i < cut.decisions
  {
    hide Inv, CutFine, Fold, Reply;
    assert EventFine(c, origin, s, i);
    assert Kept(c, s, i);
    assert CutsAfter(c, origin, s, i);
  }

  /** After a crash each name shows what the first `d` decisions made of it, for
      some `d`; every change to it that was confirmed is among them. */
  lemma CrashConsistent(c: Config, origin: Names, s: Sys, keep: Keep, name: string) returns (d: nat)
    requires Sane(c, origin, s) && CanKeep(s, keep)
    ensures d <= |s.decided| && |s.journal.stores| > 0
    ensures Shows(Crashed(c, keep, s.journal), name) == Lookup(Fold(c, origin, s.decided[..d]), name)
    ensures forall i :: 0 <= i < |s.decided| && s.decided[i].name == name && Confirmed(s, i) ==> i < d
  {
    hide Inv, Audit, CutsOk, AllKept, Fold, Crashed;
    var cut := CrashedAt(c, origin, s, keep, Ordinary(name));
    d := cut.decisions;
    forall i | 0 <= i < |s.decided| && s.decided[i].name == name && Confirmed(s, i) ensures i < d {
      ConfirmedIsKept(c, origin, s, keep, name, cut, i);
    }
  }

  /** A crash leaves a store that can be mounted: every entry is where its
      attributes say, and none is at two addresses. */
  lemma CrashTidy(c: Config, origin: Names, s: Sys, keep: Keep)
    requires Sane(c, origin, s) && CanKeep(s, keep)
    ensures |s.journal.stores| > 0
    ensures TidyAddresses(Crashed(c, keep, s.journal)) && OnePlace(Crashed(c, keep, s.journal))
    ensures forall at :: at in Crashed(c, keep, s.journal) ==> Crashed(c, keep, s.journal)[at].inode < s.next
  {
    hide Inv, Audit, CutsOk, AllKept, Fold, Crashed, MicroInv, JournalInv, Shows, TidyAddresses, OnePlace;
    InvBasics(c, origin, s);
    var crashed := Crashed(c, keep, s.journal);
    forall at | at in crashed
      ensures crashed[at].attrs.Some? && AddressOf(Load(at, crashed[at].attrs.value)) == at
      ensures !at.temp ==> !crashed[at].attrs.value.retired
      ensures crashed[at].inode < s.next
    {
      var cut := CrashedAt(c, origin, s, keep, at);
      EntryKnown(c, origin, s, cut.end, at);
      TidyAt(s.journal.stores[cut.end], at);
    }
    MakeTidy(crashed);
    forall a, b | a in crashed && b in crashed && crashed[a].inode == crashed[b].inode ensures a == b {
      var cut := CrashedAt(c, origin, s, keep, a);
      var other := CrashedAt(c, origin, s, keep, b);
      EntryKnown(c, origin, s, cut.end, a);
      EntryKnown(c, origin, s, other.end, b);
      OnePlaceAt(c, origin, s, cut.end, a, b);
    }
    MakeOnePlace(crashed);
  }

  lemma TidyAt(store: Store, at: Address)
    requires TidyAddresses(store) && at in store
    ensures store[at].attrs.Some? && AddressOf(Load(at, store[at].attrs.value)) == at
    ensures !at.temp ==> !store[at].attrs.value.retired
  {
  }

  lemma MakeTidy(store: Store)
    requires forall at :: at in store ==>
               && store[at].attrs.Some? && AddressOf(Load(at, store[at].attrs.value)) == at
               && (!at.temp ==> !store[at].attrs.value.retired)
    ensures TidyAddresses(store)
  {
  }

  lemma MakeOnePlace(store: Store)
    requires forall a, b :: a in store && b in store && store[a].inode == store[b].inode ==> a == b
    ensures OnePlace(store)
  {
  }

  lemma EntryKnown(c: Config, origin: Names, s: Sys, k: nat, at: Address)
    requires Inv(c, origin, s) && k < |s.journal.stores| && at in s.journal.stores[k]
    ensures var i := s.journal.stores[k][at].inode; i in s.journal.recs && s.journal.recs[i].name == at.name && i < s.next
  {
    InvParts(c, origin, s);
    assert SoundStore(s.journal.stores[k], s.journal.recs, k);
    assert Sound(at, s.journal.stores[k][at], s.journal.recs, k);
    hide ObjsOk, NamesOk, TempsOk, ReqsOk, SpecOk;
  }

  lemma OnePlaceAt(c: Config, origin: Names, s: Sys, k: nat, a: Address, b: Address)
    requires Inv(c, origin, s) && k < |s.journal.stores| && a in s.journal.stores[k] && b in s.journal.stores[k]
    requires s.journal.stores[k][a].inode == s.journal.stores[k][b].inode
    ensures a == b
  {
    InvParts(c, origin, s);
    assert OnePlace(s.journal.stores[k]);
    hide ObjsOk, NamesOk, TempsOk, ReqsOk, SpecOk;
  }
}
