/** The dynamic-vtable mechanism: a `TypeSystem` caches, per label, a virtual
    table for the `Object` trait whose header is copied from the native vtable
    of `String` and whose two entry points are generated on first use of the
    label; a handle pairs the value's address with the cached table. */
module DynVtable {
  import opened Host

  /** An address of code, as held in a vtable slot; its value is opaque. */
  type FnAddress = nat

  /** `size_of::<String>()` and `align_of::<String>()` on x86-64, the only
      target the generated entry points are written for. */
  const STRING_SIZE: nat := 24
  const STRING_ALIGN: nat := 8

  /** The three entries every Rust vtable starts with. */
  datatype VirtualTableHeader = VirtualTableHeader(destructorFn: FnAddress, size: nat, align: nat)

  /** The layout check `annotate` makes on the header of the table it uses. */
  predicate MatchesString(header: VirtualTableHeader)
  {
    header.size == STRING_SIZE && header.align == STRING_ALIGN
  }

  /** The generated `type_name` entry point: it loads the address and length
      of the label it was generated for and returns them, whatever its data
      argument. */
  datatype TypeNameFn = LoadLabel(captured: string)

  /** The generated `as_string` entry point: it returns its data argument. */
  datatype AsStringFn = ReturnData

  /** What calling a `type_name` slot on a data address returns: the label
      the code was generated for, whatever the data argument. */
  function CallTypeName(f: TypeNameFn, data: Text): (name: string)
    ensures name == f.captured
  {
    match f
    case LoadLabel(text) => text
  }

  /** What calling an `as_string` slot on a data address returns: the data
      address itself. */
  function CallAsString(f: AsStringFn, data: Text): (value: Text)
    ensures value == data
  {
    match f
    case ReturnData => data
  }

  /** The `Object` vtable: the copied header, then one slot per operation. */
  datatype ObjectVirtualTable = ObjectVirtualTable(header: VirtualTableHeader, typeNameFn: TypeNameFn, asStringFn: AsStringFn)

  /** A cache entry: the vtable (the executable buffer behind its entry
      points is not modelled). */
  datatype TypeInfo = TypeInfo(vtable: ObjectVirtualTable)

  /** A trait object: the data address and the table it dispatches through,
      the table named by its key in the registry. */
  datatype TraitObject = TraitObject(data: Text, vtable: string)

  /** The abort `annotate` ends in when an `assert_eq!` on the header fails. */
  datatype Panic = SizeMismatch | AlignMismatch

  datatype Outcome<T> = Ok(value: T) | Panicked(reason: Panic)

  /** The `or_insert_with` closure: generate both entry points for `typeName`
      and copy the header of the native vtable verbatim. */
  function Synthesize(typeName: string, whatever: VirtualTableHeader): (info: TypeInfo)
    ensures info.vtable.header == whatever
  {
    TypeInfo(ObjectVirtualTable(whatever, LoadLabel(typeName), ReturnData))
  }

  /** The entry points of a table synthesized for `typeName`: the label one
      returns `typeName` and the value one returns its argument, whatever data
      address they are called on. */
  lemma SynthesizedEntryPoints(typeName: string, whatever: VirtualTableHeader, data: Text)
    ensures CallTypeName(Synthesize(typeName, whatever).vtable.typeNameFn, data) == typeName
    ensures CallAsString(Synthesize(typeName, whatever).vtable.asStringFn, data) == data
  {
  }

  /** `infos.entry(typeName).or_insert_with(...)`: on a miss exactly one entry
      is added, under `typeName`, built by `Synthesize`; on a hit the map
      stays as it was; in both cases no other entry changes. */
  function GetOrInsert(infos: map<string, TypeInfo>, typeName: string, whatever: VirtualTableHeader): (m: map<string, TypeInfo>)
    ensures typeName in m
    ensures typeName in infos ==> m == infos
    ensures typeName !in infos ==> m.Keys == infos.Keys + {typeName} && m[typeName] == Synthesize(typeName, whatever)
    ensures forall k :: k in infos ==> k in m && m[k] == infos[k]
  {
    if typeName in infos then infos else infos[typeName := Synthesize(typeName, whatever)]
  }

  /** Dispatching `type_name` through a handle: the label captured by the
      table the handle points at. */
  function DispatchTypeName(infos: map<string, TypeInfo>, h: TraitObject): (name: string)
    requires h.vtable in infos
    ensures name == infos[h.vtable].vtable.typeNameFn.captured
  {
    CallTypeName(infos[h.vtable].vtable.typeNameFn, h.data)
  }

  /** Dispatching `as_string` through a handle: the handle's data address,
      whichever table it points at. */
  function DispatchAsString(infos: map<string, TypeInfo>, h: TraitObject): (value: Text)
    requires h.vtable in infos
    ensures value == h.data
  {
    CallAsString(infos[h.vtable].vtable.asStringFn, h.data)
  }

  /** The end of `annotate`: the two `assert_eq!`s on the header of the
      entry for `typeName`, size first, then the pairing of the input's
      address with that entry's table. */
  function Pair(infos: map<string, TypeInfo>, input: Text, typeName: string): (r: Outcome<TraitObject>)
    requires typeName in infos
    ensures r == Panicked(SizeMismatch) <==> infos[typeName].vtable.header.size != STRING_SIZE
    ensures r == Panicked(AlignMismatch) <==>
              infos[typeName].vtable.header.size == STRING_SIZE && infos[typeName].vtable.header.align != STRING_ALIGN
    ensures r.Ok? <==> MatchesString(infos[typeName].vtable.header)
    ensures r.Ok? ==> r.value.vtable in infos && infos[r.value.vtable] == infos[typeName]
    ensures r.Ok? ==> DispatchAsString(infos, r.value) == input
    ensures r.Ok? ==> DispatchTypeName(infos, r.value) == CallTypeName(infos[typeName].vtable.typeNameFn, input)
  {
    var header := infos[typeName].vtable.header;
    if header.size != STRING_SIZE then Panicked(SizeMismatch)
    else if header.align != STRING_ALIGN then Panicked(AlignMismatch)
    else Ok(TraitObject(input, typeName))
  }

  /** One `annotate` call as the registry sees it: the label, and the header
      the native vtable of the input supplies should the label be missing. */
  datatype Request = Request(typeName: string, whatever: VirtualTableHeader)

  /** The registry after serving `requests` in order, starting empty. */
  function Replay(requests: seq<Request>): map<string, TypeInfo>
  {
    if requests == [] then map[]
    else
      var last := requests[|requests| - 1];
      GetOrInsert(Replay(requests[..|requests| - 1]), last.typeName, last.whatever)
  }

  /** One more request is one more get-or-insert. */
  lemma ReplayStep(requests: seq<Request>, next: Request)
    ensures Replay(requests + [next]) == GetOrInsert(Replay(requests), next.typeName, next.whatever)
  {
  }

  /** The labels of `requests`. */
  ghost function Labels(requests: seq<Request>): set<string>
  {
    set i | 0 <= i < |requests| :: requests[i].typeName
  }

  /** Every request's header matches the layout of `String`, as it does when
      the native vtable is read correctly. */
  ghost predicate HeadersMatch(requests: seq<Request>)
  {
    forall i :: 0 <= i < |requests| ==> MatchesString(requests[i].whatever)
  }

  /** The registry holds an entry for exactly the labels it was asked for:
      one table per distinct label, however often each was used. */
  lemma {:induction false} ReplayKeys(requests: seq<Request>)
    ensures Replay(requests).Keys == Labels(requests)
  {
    if requests != [] {
      var init := requests[..|requests| - 1];
      ReplayKeys(init);
      assert Labels(requests) == Labels(init) + {requests[|requests| - 1].typeName} by {
        forall k ensures k in Labels(requests) <==> k in Labels(init) || k == requests[|requests| - 1].typeName {
          if k in Labels(requests) {
            var i :| 0 <= i < |requests| && requests[i].typeName == k;
            if i < |requests| - 1 {
              assert init[i] == requests[i];
            }
          }
          if k in Labels(init) {
            var i :| 0 <= i < |init| && init[i].typeName == k;
            assert requests[i] == init[i];
          }
        }
      }
    }
  }

  /** Every cached table reports the label it is stored under. */
  lemma {:induction false} ReplayReportsKey(requests: seq<Request>, k: string)
    requires k in Replay(requests)
    ensures Replay(requests)[k].vtable.typeNameFn == LoadLabel(k)
    ensures Replay(requests)[k].vtable.asStringFn == ReturnData
  {
    var init := requests[..|requests| - 1];
    var last := requests[|requests| - 1];
    if k !in Replay(init) {
      assert k == last.typeName;
    } else {
      ReplayReportsKey(init, k);
    }
  }

  /** Serving more requests never changes or drops an entry that is already
      cached, so a handle built earlier, which names its table by key, keeps
      dispatching through the same entry. */
  lemma {:induction false} ReplayStable(requests: seq<Request>, more: seq<Request>)
    ensures forall k :: k in Replay(requests) ==> k in Replay(requests + more) && Replay(requests + more)[k] == Replay(requests)[k]
  {
    if more != [] {
      var init := more[..|more| - 1];
      ReplayStable(requests, init);
      assert (requests + more)[..|requests + more| - 1] == requests + init;
      assert (requests + more)[|requests + more| - 1] == more[|more| - 1];
    } else {
      assert requests + more == requests;
    }
  }

  /** The entry for a label is the table synthesized at the first request
      with that label, from that request's header; later requests with the
      same label reuse it and never regenerate it. */
  lemma {:induction false} ReplayFirstUse(requests: seq<Request>, i: nat)
    requires i < |requests|
    requires forall j :: 0 <= j < i ==> requests[j].typeName != requests[i].typeName
    ensures requests[i].typeName in Replay(requests)
    ensures Replay(requests)[requests[i].typeName] == Synthesize(requests[i].typeName, requests[i].whatever)
  {
    var before := requests[..i];
    ReplayKeys(before);
    assert requests[i].typeName !in Labels(before);
    assert requests[..i + 1][..i] == before;
    ReplayStable(requests[..i + 1], requests[i + 1..]);
    assert requests[..i + 1] + requests[i + 1..] == requests;
  }

  /** When every header supplied matches `String`, so does every cached one,
      and the `assert_eq!`s of `annotate` never fire. */
  lemma {:induction false} ReplayHeadersMatch(requests: seq<Request>, k: string)
    requires HeadersMatch(requests)
    requires k in Replay(requests)
    ensures MatchesString(Replay(requests)[k].vtable.header)
  {
    var init := requests[..|requests| - 1];
    assert HeadersMatch(init) by {
      forall i | 0 <= i < |init| ensures MatchesString(init[i].whatever) {
        assert init[i] == requests[i];
      }
    }
    if k in Replay(init) {
      ReplayHeadersMatch(init, k);
    }
  }

  /** `TypeSystem` with its label registry. */
  class TypeSystem {
    var infos: map<string, TypeInfo>
    /** Every request served so far, in order. */
    ghost var requests: seq<Request>

    ghost predicate Valid()
      reads this
    {
      infos == Replay(requests)
    }

    /** `TypeSystem::default()`: an empty registry. */
    constructor ()
      ensures Valid()
      ensures infos == map[] && requests == []
    {
      infos := map[];
      requests := [];
    }

    /** `type_name` on a handle built by this registry: in a reachable
        registry, the key of the table the handle points at. */
    function TypeNameOf(h: TraitObject): (name: string)
      reads this
      requires h.vtable in infos
      ensures Valid() ==> name == h.vtable
    {
      CachedTableReportsKey(h.vtable);
      DispatchTypeName(infos, h)
    }

    /** In a reachable registry the table under `k` was generated for `k`. */
    lemma CachedTableReportsKey(k: string)
      requires k in infos
      ensures Valid() ==> infos[k].vtable.typeNameFn == LoadLabel(k)
    {
      if Valid() {
        ReplayReportsKey(requests, k);
      }
    }

    /** `as_string` on a handle built by this registry: the value the
        handle was built for, never a copy. */
    function AsStringOf(h: TraitObject): (value: Text)
      reads this
      requires h.vtable in infos
      ensures value == h.data
    {
      DispatchAsString(infos, h)
    }

    /** `annotate(input, typeName)`, where `whatever` is the header found in
        the native vtable of `input` (read only on a miss). The entry is
        looked up or inserted first, so a failing layout check leaves the new
        entry in place. A handle reports `typeName` and returns `input`
        itself. A layout check fails only on the header stored for `typeName`:
        on a miss that is `whatever`, on a hit the header cached earlier. */
    method Annotate(input: Text, typeName: string, whatever: VirtualTableHeader) returns (r: Outcome<TraitObject>)
      requires Valid()
      modifies this
      ensures Valid()
      ensures requests == old(requests) + [Request(typeName, whatever)]
      ensures infos == GetOrInsert(old(infos), typeName, whatever)
      ensures r == Pair(infos, input, typeName)
      ensures r.Ok? ==> r.value.vtable in infos && TypeNameOf(r.value) == typeName && AsStringOf(r.value) == input
      ensures typeName !in old(infos) ==> (r.Ok? <==> MatchesString(whatever))
      ensures typeName in old(infos) ==> (r.Ok? <==> MatchesString(old(infos)[typeName].vtable.header))
      ensures HeadersMatch(requests) ==> r.Ok?
    {
      if typeName !in infos {
        infos := infos[typeName := Synthesize(typeName, whatever)];
      }
      ghost var served := requests + [Request(typeName, whatever)];
      ReplayStep(requests, Request(typeName, whatever));
      requests := served;
      ReplayReportsKey(served, typeName);
      if HeadersMatch(served) {
        ReplayHeadersMatch(served, typeName);
      }
      r := Pair(infos, input, typeName);
    }
  }

  /** The repository's test: one value annotated as "Widget" and then as
      "Gadget"; after both calls each handle reports its own label and both
      return the original value. */
  method WidgetGadget(input: Text, whatever: VirtualTableHeader) returns (label1: string, label2: string, value1: Text, value2: Text)
    requires MatchesString(whatever)
    ensures label1 == "Widget" && label2 == "Gadget"
    ensures value1 == input && value2 == input
  {
    var ts := new TypeSystem();
    var annotated1 := ts.Annotate(input, "Widget", whatever);
    var annotated2 := ts.Annotate(input, "Gadget", whatever);
    label1, value1 := ts.TypeNameOf(annotated1.value), ts.AsStringOf(annotated1.value);
    label2, value2 := ts.TypeNameOf(annotated2.value), ts.AsStringOf(annotated2.value);
  }

  /** A cache hit: annotating with the same label twice reuses the one table,
      so both handles are the same (data, table) pair and the registry holds a
      single entry. */
  method SameLabelTwice(input: Text, typeName: string, whatever: VirtualTableHeader) returns (h1: TraitObject, h2: TraitObject, tables: nat)
    requires MatchesString(whatever)
    ensures h1 == h2 && h1.data == input && h1.vtable == typeName
    ensures tables == 1
  {
    var ts := new TypeSystem();
    var r1 := ts.Annotate(input, typeName, whatever);
    var r2 := ts.Annotate(input, typeName, whatever);
    h1, h2 := r1.value, r2.value;
    assert ts.infos.Keys == {typeName};
    tables := |ts.infos|;
  }
}
