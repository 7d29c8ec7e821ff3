/** A run there is: on an empty store a PUT creates an Object, writes it twice,
    finds that nothing holds the name, and takes it. Then a GET reads it. */
module DeviceExample {
  import opened Base
  import opened Engine
  import opened Journals
  import opened Objects
  import opened Transactions
  import opened Metadata
  import opened Device
  import opened DeviceSpec
  import opened DeviceReads
  import opened DeviceRuns
  import opened DeviceDrafts
  import opened DeviceAlone
  import Sweep

  ghost function Empty(): Sys { Sweep.Mounted(map[], 0) }

  lemma EmptyRun(c: Config)
    requires c.chunk > 0
    ensures Run(c, map[], [Empty()], []) && Empty() == Sys(Journal([map[]], [], map[]), 0, map[], map[], map[], map[], 0, [], [], [])
  {
    Sweep.MountedInitial(c, map[], 0);
    assert Sweep.Origin(map[]) == map[];
  }

  /** The Object 0 is being written, and nothing else has happened. */
  ghost predicate Made(s: Sys, name: string) {
    && s.objs.Keys == {0} && s.objs[0].stat.name == name && s.objs[0].stat.state in {PreWrite, InWrite}
    && !s.objs[0].stat.deleted && s.objs[0].inode == 0
    && s.journal.recs.Keys == {0}
    && s.names == map[] && s.decided == [] && s.reqs == map[]
  }

  lemma Creatable(c: Config, name: string)
    requires c.chunk > 0
    ensures Run(c, map[], [Empty()], []) && Enabled(c, Empty(), CreateStep(name, 1))
    ensures Do(c, Empty(), CreateStep(name, 1)) == Create(Empty(), name, 1)
  {
    hide Run, Inv, WellFormed, Create;
    EmptyRun(c);
    assert Last([Empty()]) == Empty();
    RunNow(c, map[], [Empty()], []);
  }

  lemma CreatedMade(c: Config, name: string)
    requires c.chunk > 0
    ensures Made(Create(Empty(), name, 1), name)
  {
    hide Run, Inv, Sweep.Mounted;
    EmptyRun(c);
  }

  lemma Creates(c: Config, name: string) returns (states: seq<Sys>, steps: seq<Step>)
    requires c.chunk > 0
    ensures Run(c, map[], states, steps) && |states| > 0 && Made(Last(states), name) && steps == [CreateStep(name, 1)]
  {
    hide Run, Inv, WellFormed, Enabled, Do, Create, Made, Empty;
    var s, create := Empty(), CreateStep(name, 1);
    Creatable(c, name);
    CreatedMade(c, name);
    assert Last([s]) == s;
    RunOn(c, map[], [s], [], create);
    states, steps := [s] + [Do(c, s, create)], [] + [create];
  }

  lemma Writes(c: Config, states: seq<Sys>, steps: seq<Step>, name: string, bytes: Bytes) returns (more: seq<Sys>)
    requires Run(c, map[], states, steps) && |states| > 0 && Made(Last(states), name)
    ensures Run(c, map[], more, steps + [WriteStep(0, bytes)]) && |more| > 0 && Made(Last(more), name)
  {
    hide Run, Inv, WellFormed, WriteChunk;
    RunNow(c, map[], states, steps);
    var s, write := Last(states), WriteStep(0, bytes);
    StaysMade(c, s, name, bytes);
    RunOn(c, map[], states, steps, write);
    more := states + [Do(c, s, write)];
  }

  lemma StaysMade(c: Config, s: Sys, name: string, bytes: Bytes)
    requires Inv(c, map[], s) && Made(s, name)
    ensures Made(WriteChunk(s, 0, bytes), name)
  {
    hide Inv, JournalInv, ObjOk, Quiet, Wrote;
    ObjIsFine(c, map[], s, 0);
    InvBasics(c, map[], s);
    WroteOk(s.journal, s.objs[0], bytes);
    QuietMicro(s.journal, Wrote(s.journal, s.objs[0], bytes).0, {0});
    WroteShape(s.journal, s.objs[0], bytes);
  }

  lemma WroteShape(j: Journal, o: Obj, bytes: Bytes)
    ensures Wrote(j, o, bytes).1 == o.(stat := StartedStat(o.stat), written := o.written + |bytes|, done := Length(Wrote(j, o, bytes).0))
  {
  }

  lemma SentOne(steps: seq<Step>, step: Step, id: nat)
    ensures Sent(steps + [step], id) == Sent(steps, id) + Written(step, id)
  {
    assert (steps + [step])[..|steps|] == steps;
  }

  lemma SentTwo(create: Step, first: Bytes, second: Bytes)
    requires create.CreateStep?
    ensures Sent([create] + [WriteStep(0, first)] + [WriteStep(0, second)], 0) == first + second
  {
    hide Sent;
    SentOne([], create, 0);
    SentOne([create], WriteStep(0, first), 0);
    SentOne([create] + [WriteStep(0, first)], WriteStep(0, second), 0);
    SentNone();
    assert [] + [create] == [create];
  }

  lemma SentNone()
    ensures Sent([], 0) == []
  {
  }

  /** On an empty store: a PUT of two chunks is told Done, and a GET after it is
      served the range it asks for of both, one after the other. */
  lemma APutIsServed(c: Config, name: string, first: Bytes, second: Bytes, ts: nat, meta: Headers, start: nat, stop: Option<nat>)
    returns (states: seq<Sys>, steps: seq<Step>)
    requires c.chunk > 0 && ts > 0
    ensures Run(c, map[], states, steps) && |states| > 0
    ensures 0 in Last(states).reqs && Last(states).reqs[0] == Req(name, Put(0, ts, meta), Finished(Done))
    ensures 1 in Last(states).reqs && Last(states).reqs[1].task == Get(start, stop) && Last(states).reqs[1].pc.Finished?
    ensures var outcome := Last(states).reqs[1].pc.outcome;
            outcome.Served? && outcome.body == Slice(first + second, start, stop.GetOr(|first + second|))
  {
    hide Run, Inv, WellFormed, Sent;
    states, steps := Creates(c, name);
    states := Writes(c, states, steps, name, first);
    steps := steps + [WriteStep(0, first)];
    states := Writes(c, states, steps, name, second);
    steps := steps + [WriteStep(0, second)];
    SentTwo(CreateStep(name, 1), first, second);
    RunNow(c, map[], states, steps);
    states, steps := WhatIsWrittenIsServed(c, map[], states, steps, 0, 1, name, Put(0, ts, meta), start, stop);
  }
}
