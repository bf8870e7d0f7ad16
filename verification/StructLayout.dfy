/** How a structure declared in the image is described to the foreign function library.

    An array field of n elements is replaced by n members. The layout rule is that of section 6.7.2.1
    of C11 and section 3.1.2 of the System V AMD64 psABI: members in order, each at the next multiple
    of its alignment, the whole padded to the largest alignment. */
module StructLayout {
  import opened Prelude

  datatype List<T> = Nil | Cons(head: T, tail: List<T>)

  function Append<T>(a: List<T>, b: List<T>): List<T> {
    match a
    case Nil => b
    case Cons(x, rest) => Cons(x, Append(rest, b))
  }

  function Repeat<T>(n: nat, x: T): List<T> {
    if n == 0 then Nil else Cons(x, Repeat(n - 1, x))
  }

  /** A scalar of the platform: which one it is, and the room it takes. */
  datatype Kind = Address | Number(code: nat)

  datatype ScalarType = ScalarType(kind: Kind, size: nat, align: nat)

  type Scalar = s: ScalarType | s.align > 0 && s.size % s.align == 0 witness ScalarType(Number(0), 1, 1)

  const ADDRESS: Scalar := ScalarType(Address, 8, 8)

  /** A declared type. `Pointer` is any type whose pointer arity is not zero. */
  datatype UType = Basic(s: Scalar) | Pointer | Struct(fields: List<UType>) | ArrayOf(element: UType, n: nat)

  /** A type of the foreign function library. */
  datatype TFType = TFBasic(s: Scalar) | TFStruct(members: List<TFType>)

  /** Arrays have at least one element, as C11 demands, and no array is an element of another. */
  predicate Supported(t: UType) {
    match t
    case Basic(_) => true
    case Pointer => true
    case Struct(fields) => AllSupported(fields)
    case ArrayOf(e, n) => n >= 1 && !e.ArrayOf? && Supported(e)
  }

  predicate AllSupported(fields: List<UType>) {
    fields.Cons? ==> Supported(fields.head) && AllSupported(fields.tail)
  }

  // ---- the translation ----

  function External(t: UType): TFType
    requires Supported(t) && !t.ArrayOf?
    decreases t, 0
  {
    match t
    case Basic(s) => TFBasic(s)
    case Pointer => TFBasic(ADDRESS)
    case Struct(fields) => TFStruct(Flattened(fields))
  }

  /** The members that one field becomes. */
  function ForStructure(t: UType): List<TFType>
    requires Supported(t)
    decreases t, 1
  {
    match t
    case ArrayOf(e, n) => Repeat(n, External(e))
    case _ => Cons(External(t), Nil)
  }

  function Flattened(fields: List<UType>): List<TFType>
    requires AllSupported(fields)
    decreases fields, 0
  {
    match fields
    case Nil => Nil
    case Cons(f, rest) => Append(ForStructure(f), Flattened(rest))
  }

  // ---- the layout rule ----

  datatype Box = Box(size: nat, align: nat)

  /** The least multiple of `a` from `n` on. */
  function AlignUp(n: nat, a: nat): (r: nat)
    requires a > 0
    ensures n <= r < n + a && r % a == 0
  {
    if n % a == 0 then n else
      MultipleAbove(n, a);
      n + (a - n % a)
  }

  lemma MultipleAbove(n: nat, a: nat)
    requires a > 0
    ensures (n + (a - n % a)) % a == 0
  {
    assert n + (a - n % a) == (n / a + 1) * a;
    MultipleOf(n / a + 1, a);
  }

  lemma Scaled(d: int, a: nat)
    ensures d >= 1 ==> d * a >= a
    ensures d <= -1 ==> d * a <= 0 - a
  {
    if d >= 1 {
      assert (d - 1) * a >= 0;
    } else if d <= -1 {
      assert (d + 1) * a <= 0;
    }
  }

  lemma MultipleOf(k: nat, a: nat)
    requires a > 0
    ensures (k * a) % a == 0
  {
    var q, r := (k * a) / a, (k * a) % a;
    assert k * a == q * a + r;
    assert (k - q) * a == r;
    Scaled(k - q, a);
  }

  lemma SumOfMultiples(x: nat, y: nat, a: nat)
    requires a > 0 && x % a == 0 && y % a == 0
    ensures (x + y) % a == 0
  {
    assert x + y == (x / a + y / a) * a;
    MultipleOf(x / a + y / a, a);
  }

  lemma ProductOfMultiple(n: nat, s: nat, a: nat)
    requires a > 0 && s % a == 0
    ensures (n * s) % a == 0
  {
    assert s == (s / a) * a;
    assert n * s == (n * (s / a)) * a;
    MultipleOf(n * (s / a), a);
  }

  /** What has been laid out so far: the end and the largest alignment. */
  datatype Extent = Extent(end: nat, align: nat)

  const START := Extent(0, 1)

  function Max(a: nat, b: nat): nat { if a < b then b else a }

  function Placed(x: Extent, b: Box): Extent
    requires b.align > 0
  {
    Extent(AlignUp(x.end, b.align) + b.size, Max(x.align, b.align))
  }

  function Padded(x: Extent): Box
    requires x.align > 0
  {
    Box(AlignUp(x.end, x.align), x.align)
  }

  /** The box of a declared type, arrays being laid out as one block. */
  function CBox(t: UType): (b: Box)
    ensures b.align > 0 && b.size % b.align == 0
  {
    match t
    case Basic(s) => Box(s.size, s.align)
    case Pointer => Box(ADDRESS.size, ADDRESS.align)
    case Struct(fields) => Padded(CPlaced(fields, START))
    case ArrayOf(e, n) =>
      ProductOfMultiple(n, CBox(e).size, CBox(e).align);
      Box(n * CBox(e).size, CBox(e).align)
  }

  function CPlaced(fields: List<UType>, x: Extent): (r: Extent)
    requires x.align > 0
    ensures r.align > 0
  {
    match fields
    case Nil => x
    case Cons(f, rest) => CPlaced(rest, Placed(x, CBox(f)))
  }

  function TFBox(t: TFType): (b: Box)
    ensures b.align > 0 && b.size % b.align == 0
  {
    match t
    case TFBasic(s) => Box(s.size, s.align)
    case TFStruct(members) => Padded(TFPlaced(members, START))
  }

  function TFPlaced(members: List<TFType>, x: Extent): (r: Extent)
    requires x.align > 0
    ensures r.align > 0
  {
    match members
    case Nil => x
    case Cons(m, rest) => TFPlaced(rest, Placed(x, TFBox(m)))
  }

  // ---- the memory map: where each scalar lies, whatever it is nested in ----

  datatype Cell = Cell(offset: nat, s: Scalar)

  function CCells(t: UType, base: nat): seq<Cell>
    decreases t, 0
  {
    match t
    case Basic(s) => [Cell(base, s)]
    case Pointer => [Cell(base, ADDRESS)]
    case Struct(fields) => CFieldCells(fields, base, START)
    case ArrayOf(e, n) => CElementCells(e, n, base)
  }

  function CElementCells(e: UType, n: nat, base: nat): seq<Cell>
    decreases e, n + 1
  {
    if n == 0 then [] else CCells(e, base) + CElementCells(e, n - 1, base + CBox(e).size)
  }

  function CFieldCells(fields: List<UType>, base: nat, x: Extent): seq<Cell>
    requires x.align > 0
    decreases fields, 0
  {
    match fields
    case Nil => []
    case Cons(f, rest) =>
      CCells(f, base + AlignUp(x.end, CBox(f).align)) + CFieldCells(rest, base, Placed(x, CBox(f)))
  }

  function TFCells(t: TFType, base: nat): seq<Cell> {
    match t
    case TFBasic(s) => [Cell(base, s)]
    case TFStruct(members) => TFMemberCells(members, base, START)
  }

  function TFMemberCells(members: List<TFType>, base: nat, x: Extent): seq<Cell>
    requires x.align > 0
  {
    match members
    case Nil => []
    case Cons(m, rest) =>
      TFCells(m, base + AlignUp(x.end, TFBox(m).align)) + TFMemberCells(rest, base, Placed(x, TFBox(m)))
  }

  // ---- flattening keeps the layout ----

  /** `n` members of the same box, one after the other. */
  function PlacedTimes(x: Extent, b: Box, n: nat): (r: Extent)
    requires x.align > 0 && b.align > 0
    ensures r.align > 0
    decreases n
  {
    if n == 0 then x else PlacedTimes(Placed(x, b), b, n - 1)
  }

  /** The rest of an array follows its first element without padding. */
  lemma NextIsAligned(x: Extent, b: Box)
    requires b.align > 0 && b.size % b.align == 0
    ensures AlignUp(Placed(x, b).end, b.align) == AlignUp(x.end, b.align) + b.size == Placed(x, b).end
  {
    SumOfMultiples(AlignUp(x.end, b.align), b.size, b.align);
  }

  /** So they are laid out like one block. */
  lemma {:induction false} TimesIsBlock(x: Extent, b: Box, n: nat)
    requires x.align > 0 && b.align > 0 && b.size % b.align == 0 && n >= 1
    ensures n * b.size >= 0
    ensures PlacedTimes(x, b, n) == Placed(x, Box(n * b.size, b.align))
    decreases n
  {
    if n == 1 {
      assert PlacedTimes(Placed(x, b), b, 0) == Placed(x, b);
    } else {
      NextIsAligned(x, b);
      TimesIsBlock(Placed(x, b), b, n - 1);
      assert (n - 1) * b.size + b.size == n * b.size;
    }
  }

  lemma {:induction false} ArrayPlaced(n: nat, m: TFType, rest: List<TFType>, x: Extent)
    requires x.align > 0
    ensures TFPlaced(Append(Repeat(n, m), rest), x) == TFPlaced(rest, PlacedTimes(x, TFBox(m), n))
  {
    if n > 0 {
      ArrayPlaced(n - 1, m, rest, Placed(x, TFBox(m)));
    }
  }

  lemma FlattenedOne(f: UType, rest: List<UType>)
    requires Supported(f) && !f.ArrayOf? && AllSupported(rest)
    ensures Flattened(Cons(f, rest)) == Cons(External(f), Flattened(rest))
  {
    assert ForStructure(f) == Cons(External(f), Nil);
    assert Append<TFType>(Nil, Flattened(rest)) == Flattened(rest);
  }

  lemma {:induction false} BoxKept(t: UType)
    requires Supported(t) && !t.ArrayOf?
    ensures TFBox(External(t)) == CBox(t)
  {
    if t.Struct? {
      ExtentKept(t.fields, START);
    }
  }

  lemma {:induction false} ExtentKept(fields: List<UType>, x: Extent)
    requires AllSupported(fields) && x.align > 0
    ensures TFPlaced(Flattened(fields), x) == CPlaced(fields, x)
  {
    if fields.Cons? {
      var f, rest := fields.head, fields.tail;
      ExtentKept(rest, Placed(x, CBox(f)));
      if f.ArrayOf? {
        BoxKept(f.element);
        ArrayPlaced(f.n, External(f.element), Flattened(rest), x);
        TimesIsBlock(x, CBox(f.element), f.n);
      } else {
        BoxKept(f);
        FlattenedOne(f, rest);
      }
    }
  }

  lemma {:induction false} ArrayCells(e: UType, n: nat, rest: List<TFType>, base: nat, x: Extent)
    requires x.align > 0 && Supported(e) && !e.ArrayOf?
    ensures TFMemberCells(Append(Repeat(n, External(e)), rest), base, x)
      == CElementCells(e, n, base + AlignUp(x.end, CBox(e).align))
         + TFMemberCells(rest, base, PlacedTimes(x, CBox(e), n))
    decreases e, n
  {
    if n > 0 {
      var m, b := External(e), CBox(e);
      var at := base + AlignUp(x.end, b.align);
      LayoutKept(e, at);
      NextIsAligned(x, b);
      FirstElement(e, n, at);
      ArrayCells(e, n - 1, rest, base, Placed(x, b));
      FirstCells(m, Append(Repeat(n - 1, m), rest), base, x);
      Associative(CCells(e, at), CElementCells(e, n - 1, at + b.size),
        TFMemberCells(rest, base, PlacedTimes(x, b, n)));
    }
  }

  lemma FirstElement(e: UType, n: nat, base: nat)
    requires n >= 1
    ensures CElementCells(e, n, base) == CCells(e, base) + CElementCells(e, n - 1, base + CBox(e).size)
  {
  }

  lemma FirstCells(m: TFType, rest: List<TFType>, base: nat, x: Extent)
    requires x.align > 0
    ensures TFMemberCells(Cons(m, rest), base, x)
      == TFCells(m, base + AlignUp(x.end, TFBox(m).align)) + TFMemberCells(rest, base, Placed(x, TFBox(m)))
  {
  }

  /** Flattening changes neither the size nor the alignment of a structure, and every scalar in it, at any
      depth, keeps its offset. */
  lemma {:induction false} LayoutKept(t: UType, base: nat)
    requires Supported(t) && !t.ArrayOf?
    ensures TFBox(External(t)) == CBox(t)
    ensures TFCells(External(t), base) == CCells(t, base)
    decreases t, 0
  {
    BoxKept(t);
    if t.Struct? {
      FieldCellsKept(t.fields, base, START);
    }
  }

  lemma {:induction false} FieldCellsKept(fields: List<UType>, base: nat, x: Extent)
    requires AllSupported(fields) && x.align > 0
    ensures TFMemberCells(Flattened(fields), base, x) == CFieldCells(fields, base, x)
    decreases fields, 0
  {
    if fields.Cons? {
      var f, rest := fields.head, fields.tail;
      FieldCellsKept(rest, base, Placed(x, CBox(f)));
      if f.ArrayOf? {
        ArrayCells(f.element, f.n, Flattened(rest), base, x);
        TimesIsBlock(x, CBox(f.element), f.n);
      } else {
        var at := base + AlignUp(x.end, CBox(f).align);
        LayoutKept(f, at);
        FlattenedOne(f, rest);
      }
    }
  }

  // ---- offsets of fields and members ----

  function CountMembers(t: UType): nat { if t.ArrayOf? then t.n else 1 }

  /** The offset of field `k`. */
  function FieldOffset(fields: List<UType>, x: Extent, k: nat): nat
    requires x.align > 0
  {
    match fields
    case Nil => x.end
    case Cons(f, rest) =>
      if k == 0 then AlignUp(x.end, CBox(f).align) else FieldOffset(rest, Placed(x, CBox(f)), k - 1)
  }

  function MemberOffset(members: List<TFType>, x: Extent, k: nat): nat
    requires x.align > 0
  {
    match members
    case Nil => x.end
    case Cons(m, rest) =>
      if k == 0 then AlignUp(x.end, TFBox(m).align) else MemberOffset(rest, Placed(x, TFBox(m)), k - 1)
  }

  function Count(fields: List<UType>): nat {
    match fields case Nil => 0 case Cons(_, rest) => 1 + Count(rest)
  }

  function FieldAt(fields: List<UType>, k: nat): UType
    requires k < Count(fields)
  {
    if k == 0 then fields.head else FieldAt(fields.tail, k - 1)
  }

  /** The member that field `k` starts at. */
  function FirstMember(fields: List<UType>, k: nat): nat
    requires k <= Count(fields)
  {
    if k == 0 then 0 else CountMembers(fields.head) + FirstMember(fields.tail, k - 1)
  }

  lemma {:induction false} SkipArray(n: nat, m: TFType, rest: List<TFType>, x: Extent, k: nat)
    requires x.align > 0
    ensures MemberOffset(Append(Repeat(n, m), rest), x, n + k) == MemberOffset(rest, PlacedTimes(x, TFBox(m), n), k)
  {
    if n > 0 {
      SkipArray(n - 1, m, rest, Placed(x, TFBox(m)), k);
    }
  }

  lemma {:induction false} ElementOffset(n: nat, m: TFType, rest: List<TFType>, x: Extent, j: nat)
    requires j < n && x.align > 0
    ensures MemberOffset(Append(Repeat(n, m), rest), x, j) == AlignUp(x.end, TFBox(m).align) + j * TFBox(m).size
  {
    var b := TFBox(m);
    if j > 0 {
      ElementOffset(n - 1, m, rest, Placed(x, b), j - 1);
      NextIsAligned(x, b);
      assert (j - 1) * b.size + b.size == j * b.size;
    }
  }

  function ElementSize(f: UType): nat { if f.ArrayOf? then CBox(f.element).size else CBox(f).size }

  lemma FirstOffsetKept(f: UType, rest: List<UType>, x: Extent, j: nat)
    requires Supported(f) && AllSupported(rest) && x.align > 0 && j < CountMembers(f)
    ensures MemberOffset(Flattened(Cons(f, rest)), x, j) == AlignUp(x.end, CBox(f).align) + j * ElementSize(f)
  {
    if f.ArrayOf? {
      BoxKept(f.element);
      ElementOffset(f.n, External(f.element), Flattened(rest), x, j);
    } else {
      BoxKept(f);
      FlattenedOne(f, rest);
    }
  }

  lemma SkipField(f: UType, rest: List<UType>, x: Extent, k: nat)
    requires Supported(f) && AllSupported(rest) && x.align > 0
    ensures MemberOffset(Flattened(Cons(f, rest)), x, CountMembers(f) + k)
      == MemberOffset(Flattened(rest), Placed(x, CBox(f)), k)
  {
    if f.ArrayOf? {
      BoxKept(f.element);
      SkipArray(f.n, External(f.element), Flattened(rest), x, k);
      TimesIsBlock(x, CBox(f.element), f.n);
    } else {
      BoxKept(f);
      FlattenedOne(f, rest);
    }
  }

  /** Member `j` of the members that field `k` became lies at the offset of element `j` of that field; a
      field that is not an array has the one element 0. */
  lemma {:induction false} OffsetsKept(fields: List<UType>, x: Extent, k: nat, j: nat)
    requires AllSupported(fields) && x.align > 0 && k < Count(fields) && j < CountMembers(FieldAt(fields, k))
    ensures MemberOffset(Flattened(fields), x, FirstMember(fields, k) + j)
      == FieldOffset(fields, x, k) + j * ElementSize(FieldAt(fields, k))
  {
    var f, rest := fields.head, fields.tail;
    assert fields == Cons(f, rest);
    if k == 0 {
      FirstOffsetKept(f, rest, x, j);
    } else {
      SkipField(f, rest, x, FirstMember(rest, k - 1) + j);
      OffsetsKept(rest, Placed(x, CBox(f)), k - 1, j);
    }
  }

  // ---- the layout rule, field by field ----

  function BoxAt(fields: List<UType>, k: nat): Box
    requires k < Count(fields)
  {
    CBox(FieldAt(fields, k))
  }

  /** A field lies at the first multiple of its alignment after the field before it. */
  lemma {:induction false} FieldsFollow(fields: List<UType>, x: Extent, k: nat)
    requires x.align > 0 && k < Count(fields)
    ensures
      var end := if k == 0 then x.end else FieldOffset(fields, x, k - 1) + BoxAt(fields, k - 1).size;
      var at, align := FieldOffset(fields, x, k), BoxAt(fields, k).align;
      at % align == 0 && end <= at < end + align
    decreases k
  {
    if k > 0 {
      FieldsFollow(fields.tail, Placed(x, CBox(fields.head)), k - 1);
    }
  }

  /** The extent after all fields: the end of the last one, and the largest alignment. */
  lemma {:induction false} ExtentIs(fields: List<UType>, x: Extent)
    requires x.align > 0
    ensures
      var n, r := Count(fields), CPlaced(fields, x);
      && r.end == (if n == 0 then x.end else FieldOffset(fields, x, n - 1) + BoxAt(fields, n - 1).size)
      && x.align <= r.align && (forall k :: 0 <= k < n ==> BoxAt(fields, k).align <= r.align)
      && (r.align == x.align || exists k :: 0 <= k < n && BoxAt(fields, k).align == r.align)
  {
    if fields.Cons? {
      var rest, next := fields.tail, Placed(x, CBox(fields.head));
      ExtentIs(rest, next);
      forall k | 0 <= k < Count(fields) ensures BoxAt(fields, k).align <= CPlaced(fields, x).align {
        if k > 0 { assert BoxAt(fields, k) == BoxAt(rest, k - 1); }
      }
      LargestBefore(fields, x);
    }
  }

  lemma LargestBefore(fields: List<UType>, x: Extent)
    requires x.align > 0 && fields.Cons?
    requires var r, next := CPlaced(fields, x), Placed(x, CBox(fields.head));
      r.align == next.align || exists k :: 0 <= k < Count(fields.tail) && BoxAt(fields.tail, k).align == r.align
    ensures var r := CPlaced(fields, x);
      r.align == x.align || exists k :: 0 <= k < Count(fields) && BoxAt(fields, k).align == r.align
  {
    var r, next := CPlaced(fields, x), Placed(x, CBox(fields.head));
    if r.align == next.align {
      assert BoxAt(fields, 0) == CBox(fields.head);
    } else {
      var k :| 0 <= k < Count(fields.tail) && BoxAt(fields.tail, k).align == r.align;
      assert BoxAt(fields, k + 1) == BoxAt(fields.tail, k);
    }
  }

  /** A structure has the largest alignment of its fields, and ends at the first multiple of it after the last
      field. By LayoutKept the library gives the translated structure the same box. */
  lemma StructureBox(fields: List<UType>)
    ensures
      var n, b := Count(fields), CBox(Struct(fields));
      var end := if n == 0 then 0 else FieldOffset(fields, START, n - 1) + BoxAt(fields, n - 1).size;
      && b.size % b.align == 0 && end <= b.size < end + b.align
      && (forall k :: 0 <= k < n ==> BoxAt(fields, k).align <= b.align)
      && (b.align == 1 || exists k :: 0 <= k < n && BoxAt(fields, k).align == b.align)
  {
    ExtentIs(fields, START);
  }

  /** The scalars of the first `n` fields, each field from its offset on. */
  function CellsOfFields(fields: List<UType>, x: Extent, base: nat, n: nat): seq<Cell>
    requires x.align > 0 && n <= Count(fields)
  {
    if n == 0 then []
    else CellsOfFields(fields, x, base, n - 1) + CCells(FieldAt(fields, n - 1), base + FieldOffset(fields, x, n - 1))
  }

  lemma {:induction false} FirstFieldFirst(fields: List<UType>, x: Extent, base: nat, n: nat)
    requires x.align > 0 && 0 < n <= Count(fields)
    ensures CellsOfFields(fields, x, base, n)
      == CCells(fields.head, base + AlignUp(x.end, CBox(fields.head).align))
         + CellsOfFields(fields.tail, Placed(x, CBox(fields.head)), base, n - 1)
  {
    var rest, next := fields.tail, Placed(x, CBox(fields.head));
    var first := CCells(fields.head, base + AlignUp(x.end, CBox(fields.head).align));
    if n == 1 {
      assert CellsOfFields(fields, x, base, 0) == [];
      assert [] + first == first + [];
    } else {
      FirstFieldFirst(fields, x, base, n - 1);
      Associative(first, CellsOfFields(rest, next, base, n - 2),
        CCells(FieldAt(rest, n - 2), base + FieldOffset(rest, next, n - 2)));
    }
  }

  /** The memory map of a structure is that of its fields at their offsets. */
  lemma {:induction false} CellsLieAtOffsets(fields: List<UType>, x: Extent, base: nat)
    requires x.align > 0
    ensures CFieldCells(fields, base, x) == CellsOfFields(fields, x, base, Count(fields))
  {
    if fields.Cons? {
      CellsLieAtOffsets(fields.tail, Placed(x, CBox(fields.head)), base);
      FirstFieldFirst(fields, x, base, Count(fields));
    }
  }
}
