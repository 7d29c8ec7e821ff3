/** The engine's vocabulary (backend.h, internal.cpp): what an Object is, where
    its entry sits, and the transactions each operation prepares. */
module Engine {
  import opened Base

  datatype State = PreSearch | InSearch | Missing | PreWrite | InWrite | Active | Old

  datatype Stat = Stat(name: string, ts: nat, deleted: bool, state: State)

  /** An entry's address: a space (temporary or ordinary) and a generation.
      The hash in the address is a function of the name. */
  datatype Address = Address(name: string, temp: bool, generation: nat)

  datatype Attrs = Attrs(ts: nat, deleted: bool, retired: bool)

  /** A BlueStore entry. `inode` is the identity it was created with, which a
      rename keeps; `header` is the header of its key-value map. */
  datatype Entry = Entry(inode: nat, data: Bytes, attrs: Option<Attrs>, header: Bytes)

  type Store = map<Address, Entry>

  datatype Op =
    | Touch(at: Address, inode: nat)
    | Write(at: Address, offset: nat, bytes: Bytes)
    | SetHeader(at: Address, header: Bytes)
    | SetAttrs(at: Address, attrs: Attrs)
    | Rename(at: Address, to: Address)
    | Remove(at: Address)

  // ----- addresses -----

  predicate InTempSpace(state: State) { state in {PreWrite, InWrite, Old} }

  function Ordinary(name: string): Address { Address(name, false, 0) }

  function Temporary(name: string, ts: nat): Address { Address(name, true, ts) }

  function AddressOf(stat: Stat): Address {
    if InTempSpace(stat.state) then Temporary(stat.name, stat.ts) else Ordinary(stat.name)
  }

  function AttrsOf(stat: Stat): Attrs { Attrs(stat.ts, stat.deleted, stat.state == Old) }

  /** impl::load: an Object's state is derived from where its entry sits. */
  function Load(at: Address, attrs: Attrs): Stat {
    Stat(at.name, attrs.ts, attrs.deleted, if !at.temp then Active else if attrs.retired then Old else InWrite)
  }

  // ----- transactions -----

  function WriteOps(stat: Stat, inode: nat, written: nat, bytes: Bytes): seq<Op> {
    var at := AddressOf(stat);
    var start := if stat.state == PreWrite
                 then [Touch(at, inode), SetAttrs(at, AttrsOf(stat.(state := InWrite)))]
                 else [];
    start + [Write(at, written, bytes)]
  }

  function HeaderOps(stat: Stat, inode: nat, header: Bytes): seq<Op> {
    var at := AddressOf(stat);
    var next := if stat.state == PreWrite then stat.(state := InWrite) else stat;
    (if stat.state == PreWrite then [Touch(at, inode)] else []) + [SetHeader(at, header), SetAttrs(at, AttrsOf(next))]
  }

  function Retired(prev: Stat): Stat { if prev.state == Active then prev.(state := Old) else prev }

  function Settled(next: Stat, ts: nat): Stat { next.(state := Active, ts := ts) }

  /** Backend::put: the holder, if any, moves out and the new Object moves in. */
  function PutOps(next: Stat, prev: Stat, ts: nat): seq<Op> {
    var out := if prev.state == Active
               then [Rename(AddressOf(prev), AddressOf(Retired(prev))),
                     SetAttrs(AddressOf(Retired(prev)), AttrsOf(Retired(prev)))]
               else [];
    var settled := Settled(next, ts);
    out + [Rename(AddressOf(next), AddressOf(settled)), SetAttrs(AddressOf(settled), AttrsOf(settled))]
  }

  function RemoveOps(stat: Stat): seq<Op> { [Remove(AddressOf(stat))] }

  // ----- what BlueStore does with an operation -----

  /** Bytes past the end of the data are filled with zeros, as BlueStore does. */
  function Overwrite(data: Bytes, offset: nat, bytes: Bytes): Bytes {
    if bytes == [] then data
    else
      var padded := if offset <= |data| then data else data + seq(offset - |data|, _ => 0 as bv8);
      padded[..offset] + bytes + (if offset + |bytes| <= |padded| then padded[offset + |bytes|..] else [])
  }

  /** BlueStore aborts the process on an operation that is not applicable. */
  predicate Applicable(store: Store, op: Op) {
    match op
    case Touch(_, _) => true
    case Rename(at, to) => at in store && to !in store
    case _ => op.at in store
  }

  function Apply(store: Store, op: Op): Store
    requires Applicable(store, op)
  {
    match op
    case Touch(at, inode) => if at in store then store else store[at := Entry(inode, [], None, [])]
    case Write(at, offset, bytes) => store[at := store[at].(data := Overwrite(store[at].data, offset, bytes))]
    case SetHeader(at, header) => store[at := store[at].(header := header)]
    case SetAttrs(at, attrs) => store[at := store[at].(attrs := Some(attrs))]
    case Rename(at, to) => (store - {at})[to := store[at]]
    case Remove(at) => store - {at}
  }
}
