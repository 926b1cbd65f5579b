# Rogue VM type descriptors and default intrinsics, in Dafny

This project models the object-model core of the Rogue VM's `RogueType.c`.

**The default intrinsic function** (`RogueIntrinsicFn_default`) is the one entry point through which a type answers a closed set of operations for all of its instances:
- TRACE sets the collector's mark on the object.
- HASH_CODE returns the object's identity.
- TO_STRING writes `(` + type name + `)` into a string builder.
- EQUALS_OBJECT compares references.
- EQUALS_C_STRING and EQUALS_CHARACTERS are always false.

**Type descriptors** (`RogueType_create`, `RogueType_trace`): creating a descriptor and tracing one.

**The mark encoding.** An allocation's size field carries the mark. A non-negative size means unmarked. Marking is `size ^= -1`, the bitwise complement, which leaves a negative number.

Module `RogueMark` defines the complement twice:
- on the bits of a 32-bit two's-complement word, where `^ -1` flips every bit;
- arithmetically, as `-size - 1`.

It proves the two definitions equal. It then proves the three facts the collector relies on:
- a marked size is negative;
- the original size can be recovered;
- marking again changes nothing, and any number of visits in one pass has the effect of one.

That last fact is what makes tracing safe on cyclic graphs. For descriptors, the same fact is proved about what `RogueType_trace` changes that the model can observe: the descriptor's mark, and how often its method list and its origin were traced. The repeated visits this covers are visits one after another; a visit nested inside the tracing of the method list or origin is covered only by the mark being set before those calls. `TraceType` states that order: each of the two collaborators reads the descriptor's allocation header itself when it is traced, and finds it marked.

Files and modules:
- `RogueMark.dfy`: module `RogueMark`, the mark encoding.
- `RogueAllocation.dfy`: module `RogueAllocation`, the allocation header (`allocation.size`) that every object and every descriptor has.
- `CStrings.dfy`: module `CStrings`, NUL-terminated strings as read by `strlen`, `strcpy` and `print_c_string`.
- `RogueStringBuilder.dfy`: module `RogueStringBuilder`, the builder as an append-only character sink.
- `RogueCollaborators.dfy`: module `RogueCollaborators`, the code the descriptor calls whose bodies are not part of this model:
  - `RogueVM` is an empty placeholder and records nothing.
  - `RogueVMList` holds its VM, its initial capacity and an element count. It records how often it was traced.
  - `RogueCmd` records how often it was traced.
  - Both traceable ones also keep a ghost list `tracedBy`. For each trace call it holds the tracing owner's allocation header and the size that header held during the call. The collaborator reads that size from the header itself.
- `RogueType.dfy`: module `RogueTypes`, objects, descriptors, the default intrinsic function and the descriptor trace.

Behaviour of the code worth stating outright:
- The mark is the sign of the allocation size field (RogueType.c:17-19).
- The default TRACE arm marks only the object itself; it traces nothing the object refers to (RogueType.c:16-21).
- TO_STRING returns 0 (RogueType.c:32).
- An operation code outside the six named ones reaches the final `return 0` (RogueType.c:44); it is kept as `UnknownFn`.
- `RogueType_create` checks neither that the name is non-empty nor that the object size is non-negative, so the model demands neither (RogueType.c:51-70).
- `memset` clears the whole descriptor, its allocation header included (RogueType.c:56), so a new descriptor's size field is 0 (unmarked).
- `RogueType_trace` sets the mark before it traces the method list and the origin (RogueType.c:76-78). In the model each of those two calls reads the descriptor's header itself, and `TraceType` promises the value read was already marked.

## Model

| member | source | states |
|---|---|---|
| RogueMark.Complement | Source/Unused/VM/RogueType.c:19 | the complement of a size is negative exactly when the size is non-negative, and it stays within the 32-bit range |
| RogueMark.IntegerRange | Source/Unused/VM/RogueType.c:11-19 | a RogueInteger, the type the intrinsic function returns and the size field is taken to have, is exactly an integer in -0x8000_0000 .. 0x7FFF_FFFF |
| RogueAllocation.Allocation.Init | Source/Unused/VM/RogueType.c:17-19 | an allocation header holds the size field that TRACE tests and complements; a new header holds the given size |
| RogueMark.ComplementIsXorMinusOne | Source/Unused/VM/RogueType.c:19 | on every 32-bit integer, `-x - 1` equals `x ^ -1` computed bit by bit on the two's-complement word |
| RogueMark.ComplementInvolutive | Source/Unused/VM/RogueType.c:19 | complementing a marked size again gives back the original size |
| RogueMark.OriginalSize | Source/Unused/VM/RogueType.c:17-19 | the allocation size a field stands for is the field when unmarked and its complement when marked, and it is never negative |
| RogueMark.Mark | Source/Unused/VM/RogueType.c:17-20 | a trace visit leaves the size marked; it leaves a marked size alone, complements an unmarked one, keeps the original size recoverable and stays within 32 bits |
| RogueMark.MarkIdempotent | Source/Unused/VM/RogueType.c:17 | marking an already-marked size changes nothing |
| RogueMark.MarkTimesIsMark | Source/Unused/VM/RogueType.c:17-19 | any positive number of trace visits in one pass has the effect of exactly one |
| CStrings.CStringText | Source/Unused/VM/RogueType.c:53-61 | the text of a C string is the longest NUL-free prefix: it ends at the first NUL or at the end |
| CStrings.CStringTextOfText | Source/Unused/VM/RogueType.c:61 | copying a NUL-free name with strcpy keeps it unchanged |
| CStrings.CStringTextIdempotent | Source/Unused/VM/RogueType.c:30 | printing a copied name as a C string yields the copied text itself |
| RogueStringBuilder.StringBuilder.Init | Source/Unused/VM/RogueStringBuilder.h:24 | a new builder is empty |
| RogueStringBuilder.StringBuilder.PrintCharacter | Source/Unused/VM/RogueStringBuilder.h:28 | appends exactly one character and keeps what was there |
| RogueStringBuilder.StringBuilder.PrintCString | Source/Unused/VM/RogueStringBuilder.h:34 | appends the characters of a C string up to its terminator and keeps what was there |
| RogueCollaborators.RogueVMList.Create | Source/Unused/VM/RogueType.c:67 | a new method list is empty and untraced, belongs to the given VM, and has the requested initial capacity |
| RogueCollaborators.RogueVMList.Trace | Source/Unused/VM/RogueType.c:77 | tracing the method list is recorded as one more trace, paired with the owner's header and the size the list reads from it during the call; the list's contents stay as they were |
| RogueCollaborators.RogueCmd.Trace | Source/Unused/VM/RogueType.c:78 | tracing the origin command is recorded as one more trace, paired with the owner's header and the size the command reads from it during the call |
| RogueTypes.RogueType.Create | Source/Unused/VM/RogueType.c:51-70 | a new descriptor has a fresh allocation header with size 0 (unmarked) and holds the given VM, origin and object size; its name equals the input name (its C-string text in general); its intrinsic function is the default; its method list is fresh and empty, with capacity 20 |
| RogueTypes.HashCode | Source/Unused/VM/RogueType.c:23-24 | the hash code is the object's identity, and 0 for null |
| RogueTypes.EqualsObject | Source/Unused/VM/RogueType.c:35-36 | the result is a C truth value, and it is 1 exactly when the parameter is the same reference as the context |
| RogueTypes.DefaultResult | Source/Unused/VM/RogueType.c:14-44 | HASH_CODE returns the identity and EQUALS_OBJECT tests reference identity; every other selector returns 0, including TRACE, TO_STRING and unknown codes |
| RogueTypes.IntrinsicFnDefault | Source/Unused/VM/RogueType.c:11-45 | returns the value above; TRACE marks the context's header size and changes nothing else; TO_STRING appends `(`, the type's name and `)` to the builder, keeping what was there; other selectors change neither the context nor the parameter |
| RogueTypes.EqualsObjectReflexive | Source/Unused/VM/RogueType.c:35-36 | EQUALS_OBJECT holds of every object compared with itself |
| RogueTypes.EqualObjectsHashEqually | Source/Unused/VM/RogueType.c:23-36 | objects that EQUALS_OBJECT calls equal have the same HASH_CODE, and HASH_CODE ignores its parameter |
| RogueTypes.TextEqualityIsFalse | Source/Unused/VM/RogueType.c:38-42 | EQUALS_C_STRING and EQUALS_CHARACTERS return 0 for every context and parameter |
| RogueTypes.DefaultToStringOfNewType | Source/Unused/VM/RogueType.c:26-32 | TO_STRING on an instance of a newly created type whose name has no NUL writes exactly `(`, that name and `)` into an empty builder (so `(Widget)` for `Widget`) |
| RogueTypes.TraceStep | Source/Unused/VM/RogueType.c:74-79 | an unmarked descriptor gets marked, and its method list and its origin (if any) are traced once each; a marked descriptor is left exactly as it was |
| RogueTypes.TraceStepsIsTraceStep | Source/Unused/VM/RogueType.c:74 | however often one pass reaches a descriptor, its method list and origin are traced at most once |
| RogueTypes.TraceType | Source/Unused/VM/RogueType.c:72-80 | RogueType_trace changes the descriptor's mark and trace counts exactly as one TraceStep does; it leaves the descriptor's own fields untouched; the method list and the origin are each traced exactly once by the descriptor's own header, and they read it already marked; it changes nothing when the descriptor is already marked |

## Left out

- The string builder's storage is not modelled: count, capacity, the 1024-character internal buffer, the external buffer, `reserve`, the other `print_*` functions, `log` and `to_string`. Their header gives no bodies, so the builder is an append-only character sequence.
- Memory plumbing in `RogueType_create` is not modelled: `RogueAllocator_allocate`, the computed allocation size and the inline `name_data` storage. The descriptor is a fresh object whose name field holds the copied text.
- `RogueVMTraceMethod` is not modelled. `RogueVMList_create` receives it as the per-element tracer, and the model's list has no elements.
- What `RogueVMList_trace` and `RogueCmd_trace` do internally is not modelled. Only the fact that they were called, and how often, is recorded. Their code is not part of this model.
- RogueTypes.HashCode: does not model the pointer-to-integer cast or any truncation it causes. The hash is the object's identity token, an integer fixed when the object is created.
- The width of RogueInteger is taken as 32-bit two's complement. `Rogue.h`, which defines it, is not part of this model.
- Intrinsic functions other than the default are only a value of the slot (`InstalledIntrinsicFn`). Their code is outside this file.
- The collector driver, resetting marks between passes, and the stop-the-world assumption are not modelled. None of them is in these files.
- RogueTypes.IntrinsicFnDefault: TO_STRING dereferences the context and the builder (RogueType.c:28-30); with a null context or a parameter that is not a builder the C code has undefined behaviour. The model has no such behaviour to give, so it demands both as a precondition of TO_STRING.
- Calls from `RogueVMList_trace` or `RogueCmd_trace` back into the descriptor are not modelled, because their code is not part of this model. The model does not show a nested re-entry stopping. It shows only what makes it stop: the mark is already set when those calls are made.
- RogueTypes.RogueType.Create: the parameters `vm` and `name` cannot be null in the model. The C code dereferences both (`strlen(name)` at RogueType.c:53, `&vm->allocator` at :55), so a null one is undefined behaviour and the model has no behaviour to give it.
