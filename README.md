# crazy-traits, modelled in Dafny

The repository shows three ways to attach a type label to a `String` the caller
owns. Each way hands back an `Object` handle with two operations:
`type_name` reports the label, and `as_string` gives back the original string
itself, not a copy.

- `src/dynvtable.rs` (module `DynVtable`): a `TypeSystem` keeps a registry
  from label text to a `TypeInfo`. A `TypeInfo` holds a virtual table for
  `Object`. The table's header (destructor, size, alignment) is copied from
  the native vtable of `String`. Its two entry points are generated at
  runtime: one returns the captured label, the other returns its data
  argument. `annotate` looks the label up and inserts a fresh table on a
  miss. It then asserts that the header's size and alignment are those of
  `String`, and pairs the input's address with the table.
- `src/arena.rs` (module `Arena`): a `TypeSystem` owns an append-only arena.
  Every `annotate` call allocates one more `Wrapper { value, type_name }`.
- `src/leaking.rs` (module `Leaking`): `annotate` builds one `Wrapper` and
  leaks it, so no state is kept.

There is also a shared module, `Host` (host.dfy). It holds the class `Text`,
which stands for the caller's `String`. An address of the string is a
reference to a `Text`, so "the same value, not a copy" is reference equality.

How `DynVtable` models machine-level things:

- An entry point is a datatype saying what the generated code does.
  `LoadLabel(captured)` is the `mov rax, ptr; mov rdx, len; ret` block.
  `ReturnData` is the `mov rax, rdi; ret` block.
  `CallTypeName` and `CallAsString` say what calling each one returns.
- A handle is `TraitObject(data, vtable)`. Its `vtable` is the registry key
  of the table it dispatches through.
- The header that `annotate` reads out of the native `dyn Whatever` vtable
  is a parameter, `whatever`. The reading reinterprets memory, and the two
  `assert_eq!`s exist because it could be wrong. A failed assertion is the
  result `Panicked(SizeMismatch)` or `Panicked(AlignMismatch)`.
- The class keeps a ghost history, `requests`, of the calls served so far.
  `Valid()` says that the registry equals `Replay(requests)`: the map built
  by applying get-or-insert to each request in order, starting from an empty
  map. The lemmas about `Replay` therefore describe every reachable registry.

The code orders things in a way the model keeps. On a miss, the new entry is
inserted before the size and alignment checks run. So a failing check still
leaves that entry in the registry. On a hit, the closure does not run, so
the header of the current input is never read.

The constants `STRING_SIZE = 24` and `STRING_ALIGN = 8` are the values of
`size_of::<String>()` and `align_of::<String>()` on x86-64. The generated
code targets only that architecture.

## Model

| member | source | states |
|---|---|---|
| `Leaking.Annotate` | src/leaking.rs:21-27 | the wrapper's `type_name` is the given label and its `as_string` is the very input reference |
| `Leaking.Wrapper.TypeName` | src/leaking.rs:12-14 | a field read; what it returns on an annotated wrapper, the given label, is stated by `Leaking.Annotate`'s ensures |
| `Leaking.Wrapper.AsString` | src/leaking.rs:16-18 | a field read; what it returns on an annotated wrapper, the input reference itself, is stated by `Leaking.Annotate`'s ensures |
| `Leaking.WidgetGadget` | src/leaking.rs:29-43 | annotating one value as "Widget" and as "Gadget" gives two different wrappers; each reports its own label and both return the original value |
| `Arena.Wrapper.TypeName` | src/arena.rs:12-14 | a field read; what it returns on an annotated wrapper, the given label, is stated by `Arena.TypeSystem.Annotate`'s ensures |
| `Arena.Wrapper.AsString` | src/arena.rs:16-18 | dereferences the stored address; what it returns on an annotated wrapper, the input reference itself, is stated by `Arena.TypeSystem.Annotate`'s ensures |
| `Arena.TypeSystem.constructor` | src/arena.rs:26-30 | `new()` starts with an empty arena |
| `Arena.TypeSystem.Annotate` | src/arena.rs:32-37 | appends exactly one wrapper and leaves every earlier wrapper untouched; the new wrapper reports the label and returns the input reference itself |
| `Arena.WidgetGadget` | src/arena.rs:40-56 | after annotating one value as "Widget" and then "Gadget", both wrappers stay in the arena; each reports its own label and both return the original value |
| `Arena.SameLabelTwice` | src/arena.rs:32-37 | no deduplication: the same value and label annotated twice take two arena slots, holding equal wrappers |
| `DynVtable.CallTypeName` | src/dynvtable.rs:62-66 | the generated `type_name` code returns the label it captured, whatever its data argument |
| `DynVtable.CallAsString` | src/dynvtable.rs:69-72 | the generated `as_string` code returns its data argument unchanged |
| `DynVtable.DispatchTypeName` | src/dynvtable.rs:106-107 | `type_name` through a handle returns the label captured by the table the handle points at |
| `DynVtable.DispatchAsString` | src/dynvtable.rs:109-113 | `as_string` through a handle returns the handle's data address, whichever table it points at |
| `DynVtable.TypeSystem.TypeNameOf` | src/dynvtable.rs:106-107 | in a reachable registry, `type_name` through a handle returns the key of the entry the handle points at |
| `DynVtable.TypeSystem.AsStringOf` | src/dynvtable.rs:109-113 | `as_string` through a handle returns the very value the handle was built for |
| `DynVtable.Synthesize` | src/dynvtable.rs:75-84 | a synthesized table's header is the native vtable's header, copied field for field |
| `DynVtable.SynthesizedEntryPoints` | src/dynvtable.rs:60-73 | the label entry point of a table built for L returns L, whatever its data argument; the value entry point returns its data argument unchanged |
| `DynVtable.GetOrInsert` | src/dynvtable.rs:58-59 | on a miss, exactly one entry is added, under the label, and it is the synthesized table; on a hit, the map is unchanged; no other entry ever changes |
| `DynVtable.Pair` | src/dynvtable.rs:87-94 | panics on a size mismatch, and otherwise on an alignment mismatch, exactly when the stored header differs from `String`'s; otherwise the handle uses the stored entry's table, returns the input itself, and reports what that table's label entry point returns |
| `DynVtable.ReplayStep` | src/dynvtable.rs:58-59 | serving one more request applies get-or-insert once to the registry built so far |
| `DynVtable.ReplayKeys` | src/dynvtable.rs:58-59 | the registry holds exactly one entry per distinct label ever requested |
| `DynVtable.ReplayReportsKey` | src/dynvtable.rs:59-85 | every cached table's label entry point returns the key it is stored under, and its value entry point returns its argument |
| `DynVtable.ReplayStable` | src/dynvtable.rs:58-59 | later requests never change or remove an entry already cached; since a handle names its table by key, a handle built earlier keeps dispatching through the same entry |
| `DynVtable.ReplayFirstUse` | src/dynvtable.rs:59-85 | a label's entry is the table synthesized at the label's first request, from that request's header; later requests with that label reuse it and never regenerate it |
| `DynVtable.ReplayHeadersMatch` | src/dynvtable.rs:75-88 | if every header read from the native vtable has `String`'s size and alignment, so does every cached header |
| `DynVtable.TypeSystem.constructor` | src/dynvtable.rs:48-51 | `TypeSystem::default()` starts with an empty registry |
| `DynVtable.TypeSystem.Annotate` | src/dynvtable.rs:54-95 | the registry becomes get-or-insert of the old one; the result is the layout check and pairing on the stored entry; a handle reports the given label and returns the input itself; on a miss the layout check fails exactly when the header read from the native vtable differs from `String`'s, on a hit exactly when the cached header does, so no layout-check panic happens when the native headers are read correctly |
| `DynVtable.WidgetGadget` | src/dynvtable.rs:98-114 | after annotating one value as "Widget" and then "Gadget", each handle reports its own label and both return the original value |
| `DynVtable.SameLabelTwice` | src/dynvtable.rs:58-94 | a second call with the same label is a cache hit: both handles are the same (data, table) pair, and the registry holds a single table |

## Left out

- Runtime code generation with `dynasmrt` (src/dynvtable.rs:60-73) is left out. It is a foreign library emitting x86-64 machine code. The model keeps only what each generated entry point returns.
- The panics of the `unwrap()` on `Assembler::new()` (src/dynvtable.rs:60) and on `ops.finalize()` (src/dynvtable.rs:73) are not modelled. They fire when code generation or executable memory allocation fails, which is fatal. The model's only panics are the two layout checks.
- The `ExecutableBuffer` kept in `TypeInfo` is left out. It only keeps the generated code alive.
- `std::mem::transmute` and the two-word trait-object layout (src/dynvtable.rs:11-16, 76-77, 94) are left out. This is ABI reinterpretation with no counterpart in Dafny. A trait object is a plain pair, and the header is the `whatever` parameter.
- The destructor address is an opaque number, because the real function pointer cannot be expressed.
- Table identity as a machine address is left out. `&imp.vtable` (src/dynvtable.rs:92) points into the `HashMap`'s own storage. When a later insert of a new label makes the map grow, every `TypeInfo` moves and the old storage is freed, so in the source every handle built before that insert holds a dangling table pointer, and calling `type_name` on it is undefined behaviour. The repository's test inserts only two labels and never reaches this. The model names a handle's table by key instead, so a cache hit means "same key, same entry". It describes the intended behaviour, in which a cached table outlives every handle built from it; it does not capture the dangling pointers.
- `RefCell` interior mutability is not modelled. The registry is an ordinary field that `Annotate` modifies.
- Threading is not modelled. The source is single-threaded.
- The internals of the `typed_arena` crate are not modelled. The arena is a sequence.
- Raw-pointer lifetimes, dangling references and `Box::leak`'s never-freed memory are left out. Beyond "returns the same reference", nothing about them can be stated.
- Leaking.Annotate: the model does not capture that each call boxes a new heap object at its own address. It is a function, so equal arguments give equal wrappers. What it does capture is that no state is kept between calls.
