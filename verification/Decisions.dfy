/** What a sequence of decisions leaves of a name: the put or delete with the
    greatest timestamp, the first of its kind. */
module Decisions {
  import opened Base
  import opened Metadata
  import opened Device
  import opened DeviceSpec

  function HeldTs(v: Option<Version>): nat { if v.Some? then v.value.ts else 0 }

  /** The greatest timestamp put under the name, or what the mounted store had. */
  function NewestTs(origin: Names, events: seq<Event>, name: string): nat {
    if events == [] then HeldTs(Lookup(origin, name))
    else
      var e, before := Last(events), NewestTs(origin, events[..|events| - 1], name);
      if e.HandedName? && e.name == name then Max(before, e.ts) else before
  }

  /** The holder's timestamp is the running maximum: nothing newer is ever lost,
      and nothing that is not newer ever takes effect. */
  lemma {:induction false} HolderIsNewest(c: Config, origin: Names, events: seq<Event>, name: string)
    ensures HeldTs(Lookup(Fold(c, origin, events), name)) == NewestTs(origin, events, name)
    decreases |events|
  {
    if events != [] {
      HolderIsNewest(c, origin, events[..|events| - 1], name);
    }
  }

  /** The decision that gave the name its holder. */
  ghost predicate Winner(origin: Names, events: seq<Event>, name: string, v: Version, i: nat) {
    && i < |events|
    && events[i].HandedName? && events[i].name == name
    && v.ts == events[i].ts && v.deleted == events[i].deleted && v.data == events[i].data
    && HeldTs(Lookup(origin, name)) < v.ts
    && (forall k :: 0 <= k < i && events[k].HandedName? && events[k].name == name ==> events[k].ts < v.ts)
    && (forall k :: i < k < |events| && events[k].HandedName? && events[k].name == name ==> events[k].ts <= v.ts)
  }

  /** Nothing put under the name since the mount was newer than what the store had. */
  ghost predicate Untaken(origin: Names, events: seq<Event>, name: string) {
    forall k :: 0 <= k < |events| && events[k].HandedName? && events[k].name == name ==> events[k].ts <= HeldTs(Lookup(origin, name))
  }

  /** A holder is some decision's, or the one the mounted store had, up to its metadata. */
  ghost predicate HeldFrom(origin: Names, events: seq<Event>, name: string, held: Option<Version>) {
    match held
    case None => Lookup(origin, name) == None && Untaken(origin, events, name)
    case Some(v) =>
      || (exists i: nat :: Winner(origin, events, name, v, i))
      || (Untaken(origin, events, name) && Lookup(origin, name).Some? && v == Lookup(origin, name).value.(header := v.header))
  }

  lemma {:induction false} NewestBounds(origin: Names, events: seq<Event>, name: string, k: nat)
    requires k < |events| && events[k].HandedName? && events[k].name == name
    ensures events[k].ts <= NewestTs(origin, events, name)
    decreases |events|
  {
    if k < |events| - 1 {
      NewestBounds(origin, events[..|events| - 1], name, k);
    }
  }

  lemma TakesOver(origin: Names, events: seq<Event>, e: Event, was: Option<Version>, v: Version)
    requires e.HandedName? && e.ts > HeldTs(was) == NewestTs(origin, events, e.name)
    requires v.ts == e.ts && v.deleted == e.deleted && v.data == e.data
    ensures HeldFrom(origin, events + [e], e.name, Some(v))
  {
    forall k | 0 <= k < |events| && events[k].HandedName? && events[k].name == e.name ensures events[k].ts < e.ts {
      NewestBounds(origin, events, e.name, k);
    }
    NewestStarts(origin, events, e.name);
    assert Winner(origin, events + [e], e.name, v, |events|);
  }

  lemma StaysHolder(origin: Names, events: seq<Event>, e: Event, name: string, was: Option<Version>, now: Option<Version>)
    requires HeldFrom(origin, events, name, was)
    requires e.HandedName? && e.name == name ==> e.ts <= HeldTs(was)
    requires was.None? ==> now.None?
    requires was.Some? ==> now.Some? && now.value == was.value.(header := now.value.header)
    ensures HeldFrom(origin, events + [e], name, now)
  {
    if i: nat :| was.Some? && Winner(origin, events, name, was.value, i) {
      assert Winner(origin, events + [e], name, now.value, i);
    }
  }

  /** The data and timestamp shown are those of the first decision with the
      greatest timestamp; no other put's bytes are ever mixed in. */
  lemma {:induction false} HolderIsWinner(c: Config, origin: Names, events: seq<Event>, name: string)
    ensures HeldFrom(origin, events, name, Lookup(Fold(c, origin, events), name))
    decreases |events|
  {
    hide HeldFrom, NewestTs;
    if events == [] {
      StartsHeld(origin, name);
    } else {
      var before, e := events[..|events| - 1], Last(events);
      assert events == before + [e];
      HolderIsWinner(c, origin, before, name);
      HolderIsNewest(c, origin, before, name);
      var was, now := Lookup(Fold(c, origin, before), name), Lookup(Fold(c, origin, events), name);
      if e.HandedName? && e.name == name && e.ts > HeldTs(was) {
        TakesOver(origin, before, e, was, now.value);
      } else {
        StaysHolder(origin, before, e, name, was, now);
      }
    }
  }

  lemma StartsHeld(origin: Names, name: string)
    ensures HeldFrom(origin, [], name, Lookup(origin, name))
  {
  }

  lemma {:induction false} NewestStarts(origin: Names, events: seq<Event>, name: string)
    ensures HeldTs(Lookup(origin, name)) <= NewestTs(origin, events, name)
    decreases |events|
  {
    if events != [] { NewestStarts(origin, events[..|events| - 1], name); }
  }
}
