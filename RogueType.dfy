/** Type descriptors and the default intrinsic function.

    Every heap object names its type, and every type holds one intrinsic
    function that answers a fixed set of operations (tracing, hashing,
    stringifying, equality) for all of its instances. This module models the
    default intrinsic function, the creation of a descriptor, and the
    descriptor's own trace. */
module RogueTypes {
  import opened RogueMark
  import opened CStrings
  import opened RogueStringBuilder
  import opened RogueCollaborators
  import opened RogueAllocation

  /** The initial capacity of a new type's method list. */
  const METHOD_LIST_CAPACITY: int := 20

  /** The operation selector. The six named codes are the enumeration; an
      integer outside it is representable in C and reaches the final
      `return 0`, so it is kept here as UnknownFn. */
  datatype IntrinsicFnType =
    | TraceFn
    | HashCodeFn
    | ToStringFn
    | EqualsObjectFn
    | EqualsCStringFn
    | EqualsCharactersFn
    | UnknownFn(code: int)

  /** The value of a type's intrinsic-function slot: null (as left by
      zero-filling), the default function, or a function installed by code
      outside this model. */
  datatype IntrinsicFn = NullIntrinsicFn | DefaultIntrinsicFn | InstalledIntrinsicFn(id: nat)

  /** A heap object: its allocation header (whose size field carries the
      mark), its type, and its identity (the address the hash code is taken
      from). */
  class RogueObject {
    const allocation: Allocation
    var objectType: RogueType
    const identity: int

    constructor Init(objectType: RogueType, size: int, identity: int)
      ensures fresh(allocation) && allocation.size == size
      ensures this.objectType == objectType && this.identity == identity
    {
      allocation := new Allocation.Init(size);
      this.objectType := objectType;
      this.identity := identity;
    }
  }

  /** A type descriptor, with its own allocation header. */
  class RogueType {
    const allocation: Allocation
    var vm: RogueVM
    var origin: RogueCmd?
    var name: seq<char>
    var objectSize: int
    var intrinsicFn: IntrinsicFn
    var methods: RogueVMList

    /** RogueType_create. The header is zero-filled along with the rest of the
        descriptor, so a new descriptor is unmarked. */
    constructor Create(vm: RogueVM, origin: RogueCmd?, name: seq<char>, objectSize: int)
      ensures fresh(allocation) && allocation.size == 0 && !IsMarked(allocation.size)
      ensures this.vm == vm && this.origin == origin
      ensures this.name == CStringText(name)
      ensures NUL !in name ==> this.name == name
      ensures this.objectSize == objectSize
      ensures intrinsicFn == DefaultIntrinsicFn
      ensures fresh(methods)
      ensures methods.vm == vm && methods.initialCapacity == METHOD_LIST_CAPACITY
      ensures methods.count == 0 && methods.traceCount == 0
    {
      allocation := new Allocation.Init(0);
      intrinsicFn := NullIntrinsicFn;
      this.vm := vm;
      this.origin := origin;
      this.name := CStringText(name);
      this.objectSize := objectSize;
      intrinsicFn := DefaultIntrinsicFn;
      methods := new RogueVMList.Create(vm, METHOD_LIST_CAPACITY);
      if NUL !in name {
        CStringTextOfText(name);
      }
    }
  }

  // ---------------------------------------------------------------------------
  // The default intrinsic function
  // ---------------------------------------------------------------------------

  /** HASH_CODE: the object's identity; a null context hashes to 0. */
  function HashCode(context: RogueObject?): (r: int)
    ensures context == null ==> r == 0
    ensures context != null ==> r == context.identity
  {
    if context == null then 0 else context.identity
  }

  /** EQUALS_OBJECT: reference identity, as a C truth value. */
  function EqualsObject(context: RogueObject?, parameter: object?): (r: int)
    ensures r == 0 || r == 1
    ensures r == 1 <==> context == parameter
  {
    if context == parameter then 1 else 0
  }

  /** The value the default intrinsic function returns, for every selector. */
  function DefaultResult(fnType: IntrinsicFnType, context: RogueObject?, parameter: object?): (r: int)
    ensures fnType.HashCodeFn? ==> r == HashCode(context)
    ensures fnType.EqualsObjectFn? ==> (r == 1 <==> context == parameter)
    ensures !fnType.HashCodeFn? && !fnType.EqualsObjectFn? ==> r == 0
  {
    match fnType
    case HashCodeFn => HashCode(context)
    case EqualsObjectFn => EqualsObject(context, parameter)
    case _ => 0
  }

  /** The header the TRACE arm may change. */
  function HeaderOf(context: RogueObject?): set<object>
  {
    if context == null then {} else {context.allocation}
  }

  /** RogueIntrinsicFn_default. `parameter` is the C `void*`: the string
      builder for TO_STRING, the object compared against for EQUALS_OBJECT,
      and ignored otherwise. TO_STRING dereferences both the context and the
      builder, so it demands both. */
  method IntrinsicFnDefault(fnType: IntrinsicFnType, context: RogueObject?, parameter: object?)
    returns (r: int)
    requires fnType.ToStringFn? ==> context != null && parameter is StringBuilder
    modifies HeaderOf(context), parameter
    ensures r == DefaultResult(fnType, context, parameter)
    ensures fnType.TraceFn? && context != null ==>
      context.allocation.size == Mark(old(context.allocation.size))
    ensures !fnType.TraceFn? && context != null ==> unchanged(context.allocation)
    ensures context != null ==> unchanged(context)
    ensures fnType.ToStringFn? ==>
      (parameter as StringBuilder).contents ==
        old((parameter as StringBuilder).contents) + ['('] + CStringText(context.objectType.name) + [')']
    ensures !fnType.ToStringFn? && parameter != null && parameter !in HeaderOf(context) ==>
      unchanged(parameter)
  {
    match fnType {
      case TraceFn =>
        if context != null && context.allocation.size >= 0 {
          context.allocation.size := Complement(context.allocation.size);
        }
      case HashCodeFn =>
        return HashCode(context);
      case ToStringFn =>
        var builder := parameter as StringBuilder;
        builder.PrintCharacter('(');
        builder.PrintCString(context.objectType.name);
        builder.PrintCharacter(')');
        return 0;
      case EqualsObjectFn =>
        return EqualsObject(context, parameter);
      case EqualsCStringFn =>
        return 0;
      case EqualsCharactersFn =>
        return 0;
      case UnknownFn(_) =>
    }
    return 0;
  }

  /** EQUALS_OBJECT is reflexive for every object, null included. */
  lemma EqualsObjectReflexive(o: RogueObject?)
    ensures DefaultResult(EqualsObjectFn, o, o) == 1
  {
  }

  /** Objects the default EQUALS_OBJECT calls equal have equal hash codes,
      whatever parameter accompanies HASH_CODE. */
  lemma EqualObjectsHashEqually(a: RogueObject?, b: RogueObject?, p: object?, q: object?)
    requires DefaultResult(EqualsObjectFn, a, b) == 1
    ensures DefaultResult(HashCodeFn, a, p) == DefaultResult(HashCodeFn, b, q)
  {
  }

  /** The default never considers an object equal to raw character data. */
  lemma TextEqualityIsFalse(context: RogueObject?, parameter: object?)
    ensures DefaultResult(EqualsCStringFn, context, parameter) == 0
    ensures DefaultResult(EqualsCharactersFn, context, parameter) == 0
  {
  }

  /** An instance of a newly created type whose name has no NUL stringifies,
      by default, as its name in parentheses: "(Widget)" for "Widget". */
  method DefaultToStringOfNewType(name: seq<char>, objectSize: int) returns (text: seq<char>)
    requires NUL !in name
    ensures text == "(" + name + ")"
  {
    var vm := new RogueVM.Init();
    var newType := new RogueType.Create(vm, null, name, objectSize);
    var instance := new RogueObject.Init(newType, objectSize, 1);
    var builder := new StringBuilder.Init();
    var r := IntrinsicFnDefault(ToStringFn, instance, builder);
    text := builder.contents;
  }

  // ---------------------------------------------------------------------------
  // RogueType_trace
  // ---------------------------------------------------------------------------

  /** What a descriptor's trace reads and changes: its size field, how often
      its method list was traced, and how often its origin (if any) was. */
  datatype OriginView = NoOrigin | OriginTraced(count: nat)
  datatype TypeTraceView = TypeTraceView(size: int, methodsTraced: nat, origin: OriginView)

  /** One visit of RogueType_trace to a non-null descriptor. */
  function TraceStep(v: TypeTraceView): (r: TypeTraceView)
    ensures r.size == Mark(v.size)
    ensures IsMarked(v.size) ==> r == v
    ensures !IsMarked(v.size) ==> r.methodsTraced == v.methodsTraced + 1
    ensures !IsMarked(v.size) ==> (r.origin.NoOrigin? <==> v.origin.NoOrigin?)
    ensures !IsMarked(v.size) && v.origin.OriginTraced? ==> r.origin.count == v.origin.count + 1
  {
    if IsMarked(v.size) then v
    else
      TypeTraceView(Complement(v.size), v.methodsTraced + 1,
                    match v.origin
                    case NoOrigin => NoOrigin
                    case OriginTraced(n) => OriginTraced(n + 1))
  }

  /** n visits during one pass. */
  function TraceSteps(v: TypeTraceView, n: nat): TypeTraceView
  {
    if n == 0 then v else TraceStep(TraceSteps(v, n - 1))
  }

  /** However often a pass reaches a descriptor, its methods and origin are
      traced at most once: any positive number of visits equals one. */
  lemma {:induction false} TraceStepsIsTraceStep(v: TypeTraceView, n: nat)
    requires n >= 1
    ensures TraceSteps(v, n) == TraceStep(v)
  {
    if n > 1 {
      TraceStepsIsTraceStep(v, n - 1);
      assert IsMarked(TraceStep(v).size);
    }
  }

  ghost function View(t: RogueType): TypeTraceView
    reads t, t.allocation, t.methods, t.origin
  {
    TypeTraceView(t.allocation.size, t.methods.traceCount,
                  if t.origin == null then NoOrigin else OriginTraced(t.origin.traceCount))
  }

  function TraceFootprint(t: RogueType?): set<object>
    reads t
  {
    if t == null then {}
    else if t.origin == null then {t.allocation as object, t.methods}
    else {t.allocation as object, t.methods, t.origin as object}
  }

  /** RogueType_trace: marks an unmarked descriptor and traces its method list
      and its origin if present; a null or marked descriptor is left alone.
      The mark is set before the method list and the origin are traced, so a
      trace that reached the descriptor again from them would find it marked. */
  method TraceType(t: RogueType?)
    modifies TraceFootprint(t)
    ensures t != null ==> View(t) == TraceStep(old(View(t)))
    ensures t != null && !IsMarked(old(t.allocation.size)) ==>
      IsMarked(t.allocation.size) &&
      t.methods.tracedBy == old(t.methods.tracedBy) + [(t.allocation, t.allocation.size)]
    ensures t != null && !IsMarked(old(t.allocation.size)) && t.origin != null ==>
      t.origin.tracedBy == old(t.origin.tracedBy) + [(t.allocation, t.allocation.size)]
    ensures t != null ==> unchanged(t) && t.methods.count == old(t.methods.count)
    ensures t != null && IsMarked(old(t.allocation.size)) ==> unchanged(TraceFootprint(t))
  {
    if t != null && t.allocation.size >= 0 {
      t.allocation.size := Complement(t.allocation.size);
      t.methods.Trace(t.allocation);
      if t.origin != null {
        t.origin.Trace(t.allocation);
      }
    }
  }
}
