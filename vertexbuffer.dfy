/**
 The vertex buffer: a CPU-side list of vertices, a GL vertex array and buffer created
 on first use, and the attribute layout declared by the `setup` overloads.

 The five public `setup` overloads (one to five attributes, each chaining to the one
 with one attribute fewer) are one recursive method over a sequence of attributes.
 A C++ attribute type `TAttr` with `NAttr` components is an `Attribute` carrying
 `sizeof(TAttr)` and `NAttr`; `sizeof(TVertex)` is the buffer's `vertexSize`. The GL
 calls that set the layout are recorded as `AttribPointer` values.
 */
module VertexBuffers {

  /** A `sizeof`: never zero. */
  type Pos = n: nat | n > 0 witness 1

  /** One vertex attribute: its shader name, `sizeof` one component, and the component count. */
  datatype Attribute = Attribute(name: string, elemSize: nat, count: nat)

  function Size(a: Attribute): nat
  {
    a.elemSize * a.count
  }

  /** The bytes taken by a run of attributes laid out back to back. */
  function TotalSize(attrs: seq<Attribute>): nat
  {
    if attrs == [] then 0 else TotalSize(attrs[..|attrs| - 1]) + Size(attrs[|attrs| - 1])
  }

  /** GL_BYTE, GL_SHORT, GL_FLOAT. */
  datatype GlType = GlByte | GlShort | GlFloat

  /** The width in bytes of one component of each GL type. */
  function Width(t: GlType): nat
  {
    match t
    case GlByte => 1
    case GlShort => 2
    case GlFloat => 4
  }

  /** `getDataType`: the GL type is chosen by the width of the C++ component type alone. */
  function DataTypeOf(elemSize: nat): (t: GlType)
    ensures elemSize in {1, 2, 4} <==> Width(t) == elemSize
    ensures elemSize !in {1, 2} <==> t == GlFloat
  {
    if elemSize == 1 then GlByte
    else if elemSize == 2 then GlShort
    else GlFloat
  }

  /** One glVertexAttribPointer call, followed by glEnableVertexAttribArray on the same index. */
  datatype AttribPointer = AttribPointer(index: nat, count: nat, dataType: GlType, stride: int, offset: nat)

  /** The declaration of attribute i: it starts where the attributes before it end. */
  function PointerAt(attrs: seq<Attribute>, i: nat, stride: int): AttribPointer
    requires i < |attrs|
  {
    AttribPointer(i, attrs[i].count, DataTypeOf(attrs[i].elemSize), stride, TotalSize(attrs[..i]))
  }

  /** The layout a set of attributes gets with the given stride: attribute i declared by PointerAt. */
  function Pointers(attrs: seq<Attribute>, stride: int): (ps: seq<AttribPointer>)
    ensures |ps| == |attrs|
    ensures forall i :: 0 <= i < |ps| ==> ps[i] == PointerAt(attrs, i, stride)
  {
    seq(|attrs|, i requires 0 <= i < |attrs| => PointerAt(attrs, i, stride))
  }

  /** The size of two runs of attributes laid out one after the other. */
  lemma {:induction false} TotalSizeConcat(a: seq<Attribute>, b: seq<Attribute>)
    ensures TotalSize(a + b) == TotalSize(a) + TotalSize(b)
    decreases |b|
  {
    if b == [] {
      assert a + b == a;
    } else {
      var b' := b[..|b| - 1];
      TotalSizeConcat(a, b');
      assert (a + b)[..|a + b| - 1] == a + b';
    }
  }

  /** The names of the attributes, in order. */
  function Names(attrs: seq<Attribute>): (ns: seq<string>)
    ensures |ns| == |attrs| && forall i :: 0 <= i < |attrs| ==> ns[i] == attrs[i].name
  {
    seq(|attrs|, i requires 0 <= i < |attrs| => attrs[i].name)
  }

  /** std::vector::resize: truncate, or pad with `fill`. */
  function Resized<T>(s: seq<T>, n: nat, fill: T): (r: seq<T>)
    ensures |r| == n
    ensures forall i :: 0 <= i < n ==> r[i] == if i < |s| then s[i] else fill
  {
    if n <= |s| then s[..n] else s + seq(n - |s|, _ => fill)
  }

  /** The stride as `checkStride` sees it, converted to `unsigned int`. */
  function AsUnsigned(stride: int): nat
  {
    stride % 0x1_0000_0000
  }

  /** The stride the attributes are declared with: the given one, or their total size when it is 0. */
  function EffectiveStride(attrs: seq<Attribute>, stride: int): int
  {
    if stride == 0 then TotalSize(attrs) else stride
  }

  /** Whether `checkStride` accepts the stride of a declared layout. */
  predicate StrideAccepted(attrs: seq<Attribute>, stride: int, vertexSize: Pos)
  {
    AsUnsigned(EffectiveStride(attrs, stride)) == vertexSize
  }

  /**
   The attribute names after `setup`: with a stride of 0 the list is first resized to the
   number of attributes (to 1 when they are all empty, since each nested overload then
   resizes again); when the stride is accepted the names are written at their indices.
   */
  function NamesAfter(names: seq<string>, attrs: seq<Attribute>, stride: int, vertexSize: Pos): (r: seq<string>)
    requires stride != 0 && StrideAccepted(attrs, stride, vertexSize) ==> |attrs| <= |names|
    requires attrs != []
  {
    var base := if stride == 0 then Resized(names, if TotalSize(attrs) == 0 then 1 else |attrs|, "") else names;
    if StrideAccepted(attrs, stride, vertexSize) then
      Names(attrs) + base[|attrs|..]
    else base
  }

  class VertexBuffer<V> {
    /** sizeof(TVertex). */
    const vertexSize: Pos
    /** The value a default-constructed TVertex has. */
    const zero: V
    /** GL names of the vertex array and the buffer; 0 until first bound. */
    var vao: nat
    var vbo: nat
    var stride: nat
    var attrNames: seq<string>
    var vertices: seq<V>
    /** The layout calls made so far, in order. */
    var pointers: seq<AttribPointer>
    /** What the last upload sent to the GPU buffer. */
    var gpuData: seq<V>

    constructor (vertexSize: Pos, zero: V)
      ensures this.vertexSize == vertexSize && this.zero == zero
      ensures vao == 0 && vbo == 0 && stride == 0
      ensures attrNames == [] && vertices == [] && pointers == [] && gpuData == []
    {
      this.vertexSize := vertexSize;
      this.zero := zero;
      vao := 0;
      vbo := 0;
      stride := 0;
      attrNames := [];
      vertices := [];
      pointers := [];
      gpuData := [];
    }

    /** `bind`: generate the vertex array and the buffer the first time only. */
    method Bind(newVao: nat, newVbo: nat)
      requires newVao != 0 && newVbo != 0
      modifies this
      ensures vao != 0 && vbo != 0
      ensures vao == if old(vao) == 0 then newVao else old(vao)
      ensures vbo == if old(vbo) == 0 then newVbo else old(vbo)
      ensures stride == old(stride) && attrNames == old(attrNames) && vertices == old(vertices)
      ensures pointers == old(pointers) && gpuData == old(gpuData)
    {
      if vao == 0 {
        vao := newVao;
      }
      if vbo == 0 {
        vbo := newVbo;
      }
    }

    /** `upload`: bind, then copy every vertex into the GPU buffer. */
    method Upload(newVao: nat, newVbo: nat)
      requires newVao != 0 && newVbo != 0
      modifies this
      ensures vao != 0 && vbo != 0
      ensures vao == if old(vao) == 0 then newVao else old(vao)
      ensures vbo == if old(vbo) == 0 then newVbo else old(vbo)
      ensures gpuData == vertices == old(vertices)
      ensures stride == old(stride) && attrNames == old(attrNames) && pointers == old(pointers)
    {
      Bind(newVao, newVbo);
      gpuData := vertices;
    }

    /** `resize`: truncate, or pad with default-constructed vertices. */
    method Resize(size: nat)
      modifies this
      ensures vertices == Resized(old(vertices), size, zero)
      ensures vao == old(vao) && vbo == old(vbo) && stride == old(stride)
      ensures attrNames == old(attrNames) && pointers == old(pointers) && gpuData == old(gpuData)
    {
      vertices := Resized(vertices, size, zero);
    }

    /** `add`: append a vertex and return its index. */
    method Add(vertex: V) returns (index: nat)
      modifies this
      ensures index == |old(vertices)|
      ensures vertices == old(vertices) + [vertex]
      ensures vao == old(vao) && vbo == old(vbo) && stride == old(stride)
      ensures attrNames == old(attrNames) && pointers == old(pointers) && gpuData == old(gpuData)
    {
      index := |vertices|;
      vertices := vertices + [vertex];
    }

    /** `ensureAttrArrays`. */
    method EnsureAttrArrays(size: nat)
      modifies this
      ensures attrNames == Resized(old(attrNames), size, "")
      ensures vao == old(vao) && vbo == old(vbo) && stride == old(stride)
      ensures vertices == old(vertices) && pointers == old(pointers) && gpuData == old(gpuData)
    {
      attrNames := Resized(attrNames, size, "");
    }

    /** `checkStride`: the stride, as an unsigned int, must be sizeof(TVertex). */
    function CheckStride(stride: int): (ok: bool)
      ensures ok <==> stride % 0x1_0000_0000 == vertexSize
    {
      AsUnsigned(stride) == vertexSize
    }

    /** The private `setup`: check the stride, record the name, declare and enable the attribute. */
    method SetupAttribute(a: Attribute, index: nat, stride: int, offset: nat) returns (ok: bool)
      requires CheckStride(stride) ==> index < |attrNames|
      modifies this
      ensures ok == CheckStride(stride)
      ensures attrNames == if ok then old(attrNames)[index := a.name] else old(attrNames)
      ensures pointers == if ok then old(pointers) + [AttribPointer(index, a.count, DataTypeOf(a.elemSize), stride, offset)]
                          else old(pointers)
      ensures vao == old(vao) && vbo == old(vbo) && this.stride == old(this.stride)
      ensures vertices == old(vertices) && gpuData == old(gpuData)
    {
      if !CheckStride(stride) {
        return false;
      }
      attrNames := attrNames[index := a.name];
      pointers := pointers + [AttribPointer(index, a.count, DataTypeOf(a.elemSize), stride, offset)];
      return true;
    }

    /** The one-attribute `setup` overload: bind, then declare attribute 0 at offset 0. */
    method SetupSingle(a: Attribute, stride: int, newVao: nat, newVbo: nat) returns (ok: bool)
      requires newVao != 0 && newVbo != 0
      requires stride != 0 && StrideAccepted([a], stride, vertexSize) ==> 1 <= |attrNames|
      modifies this
      ensures ok == StrideAccepted([a], stride, vertexSize)
      ensures vao != 0 && vbo != 0
      ensures vao == if old(vao) == 0 then newVao else old(vao)
      ensures vbo == if old(vbo) == 0 then newVbo else old(vbo)
      ensures this.stride == if stride == 0 then TotalSize([a]) else old(this.stride)
      ensures attrNames == NamesAfter(old(attrNames), [a], stride, vertexSize)
      ensures pointers == if ok then old(pointers) + Pointers([a], EffectiveStride([a], stride))
                          else old(pointers)
      ensures vertices == old(vertices) && gpuData == old(gpuData)
    {
      var s := stride;
      ghost var names0 := attrNames;
      Bind(newVao, newVbo);
      if s == 0 {
        EnsureAttrArrays(1);
        s := Size(a);
        this.stride := s;
      }
      assert [a][..0] == [];
      assert TotalSize([a]) == TotalSize([a][..0]) + Size(a);
      assert s == EffectiveStride([a], stride);
      ok := SetupAttribute(a, 0, s, 0);
      assert Pointers([a], s) == [PointerAt([a], 0, s)];
      ghost var base := if stride == 0 then Resized(names0, 1, "") else names0;
      if ok {
        assert base[0..] == base;
        WriteName([a], base, 1);
      }
    }

    /**
     The `setup` overloads for one to five attributes. A stride of 0 means "tightly packed":
     the names list is sized and the stride is the attributes' total size. Only the last
     attribute's result is returned; all of them share one stride, so they succeed or fail
     together.
     */
    method Setup(attrs: seq<Attribute>, stride: int, newVao: nat, newVbo: nat) returns (ok: bool)
      requires 1 <= |attrs| <= 5
      requires newVao != 0 && newVbo != 0
      requires stride != 0 && StrideAccepted(attrs, stride, vertexSize) ==> |attrs| <= |attrNames|
      modifies this
      decreases |attrs|, 1
      ensures ok == StrideAccepted(attrs, stride, vertexSize)
      ensures vao != 0 && vbo != 0
      ensures vao == if old(vao) == 0 then newVao else old(vao)
      ensures vbo == if old(vbo) == 0 then newVbo else old(vbo)
      ensures this.stride == if stride == 0 then TotalSize(attrs) else old(this.stride)
      ensures attrNames == NamesAfter(old(attrNames), attrs, stride, vertexSize)
      ensures pointers == if ok then old(pointers) + Pointers(attrs, EffectiveStride(attrs, stride))
                          else old(pointers)
      ensures vertices == old(vertices) && gpuData == old(gpuData)
    {
      if |attrs| == 1 {
        assert attrs == [attrs[0]];
        ok := SetupSingle(attrs[0], stride, newVao, newVbo);
      } else {
        ok := SetupChained(attrs, stride, newVao, newVbo);
      }
    }

    /**
     The overloads for two to five attributes: size the names and compute the stride when it
     is 0, run the overload for all but the last attribute, then declare the last one after them.
     */
    method SetupChained(attrs: seq<Attribute>, stride: int, newVao: nat, newVbo: nat) returns (ok: bool)
      requires 2 <= |attrs| <= 5
      requires newVao != 0 && newVbo != 0
      requires stride != 0 && StrideAccepted(attrs, stride, vertexSize) ==> |attrs| <= |attrNames|
      modifies this
      decreases |attrs|, 0
      ensures ok == StrideAccepted(attrs, stride, vertexSize)
      ensures vao != 0 && vbo != 0
      ensures vao == if old(vao) == 0 then newVao else old(vao)
      ensures vbo == if old(vbo) == 0 then newVbo else old(vbo)
      ensures this.stride == if stride == 0 then TotalSize(attrs) else old(this.stride)
      ensures attrNames == NamesAfter(old(attrNames), attrs, stride, vertexSize)
      ensures pointers == if ok then old(pointers) + Pointers(attrs, EffectiveStride(attrs, stride))
                          else old(pointers)
      ensures vertices == old(vertices) && gpuData == old(gpuData)
    {
      var n := |attrs|;
      var s := stride;
      ghost var names0 := attrNames;
      var offset := TotalSize(attrs[..n - 1]);
      if s == 0 {
        EnsureAttrArrays(n);
        s := offset + Size(attrs[n - 1]);
        this.stride := s;
      }
      ghost var base := attrNames;
      assert s == EffectiveStride(attrs, stride);
      assert s != 0 ==> EffectiveStride(attrs[..n - 1], s) == s;
      var _ := Setup(attrs[..n - 1], s, newVao, newVbo);
      ghost var mid := attrNames;
      ok := SetupAttribute(attrs[n - 1], n - 1, s, offset);
      SetupStep(attrs, s);
      NamesAfterStep(names0, attrs, stride, vertexSize);
      assert mid == NamesAfter(base, attrs[..n - 1], s, vertexSize);
      assert attrNames == if ok then mid[n - 1 := attrs[n - 1].name] else mid;
    }
  }

  /** Resizing twice, the second time smaller, is resizing once. */
  lemma ResizedTwice<T>(s: seq<T>, n: nat, m: nat, fill: T)
    requires m <= n
    ensures Resized(Resized(s, n, fill), m, fill) == Resized(s, m, fill)
  {
    var lhs := Resized(Resized(s, n, fill), m, fill);
    forall i | 0 <= i < m
      ensures lhs[i] == Resized(s, m, fill)[i]
    {
    }
  }

  /** Writing the k-th name after the first k-1 were written gives the first k names. */
  lemma WriteName(attrs: seq<Attribute>, base: seq<string>, k: nat)
    requires 1 <= k <= |attrs| && k <= |base|
    ensures (Names(attrs[..k - 1]) + base[k - 1..])[k - 1 := attrs[k - 1].name] == Names(attrs[..k]) + base[k..]
  {
    var lhs := (Names(attrs[..k - 1]) + base[k - 1..])[k - 1 := attrs[k - 1].name];
    var rhs := Names(attrs[..k]) + base[k..];
    assert |lhs| == |rhs|;
    forall i | 0 <= i < |lhs|
      ensures lhs[i] == rhs[i]
    {
    }
  }

  /** `NamesAfter` for n >= 2 attributes follows the nesting of the overloads. */
  lemma NamesAfterStep(names: seq<string>, attrs: seq<Attribute>, stride: int, vertexSize: Pos)
    requires |attrs| >= 2
    requires stride != 0 && StrideAccepted(attrs, stride, vertexSize) ==> |attrs| <= |names|
    ensures
      var n := |attrs|;
      var base := if stride == 0 then Resized(names, n, "") else names;
      var s := EffectiveStride(attrs, stride);
      var mid := NamesAfter(base, attrs[..n - 1], s, vertexSize);
      && (StrideAccepted(attrs, stride, vertexSize) ==> n - 1 < |mid|)
      && NamesAfter(names, attrs, stride, vertexSize) ==
         if StrideAccepted(attrs, stride, vertexSize) then mid[n - 1 := attrs[n - 1].name] else mid
  {
    var n := |attrs|;
    var base := if stride == 0 then Resized(names, n, "") else names;
    var s := EffectiveStride(attrs, stride);
    if s == 0 {
      ResizedTwice(names, n, 1, "");
    } else {
      assert EffectiveStride(attrs[..n - 1], s) == s;
      if StrideAccepted(attrs, stride, vertexSize) {
        WriteName(attrs, base, n);
        assert attrs[..n] == attrs;
      }
    }
  }

  /** The layout of n attributes is the layout of the first n-1 followed by the last one. */
  lemma SetupStep(attrs: seq<Attribute>, s: int)
    requires |attrs| >= 2
    ensures Pointers(attrs, s) == Pointers(attrs[..|attrs| - 1], s) + [PointerAt(attrs, |attrs| - 1, s)]
  {
    var n := |attrs|;
    var prefix := attrs[..n - 1];
    var lhs := Pointers(attrs, s);
    var rhs := Pointers(prefix, s) + [PointerAt(attrs, n - 1, s)];
    forall i | 0 <= i < n - 1
      ensures lhs[i] == rhs[i]
    {
      assert prefix[..i] == attrs[..i];
      assert PointerAt(prefix, i, s) == PointerAt(attrs, i, s);
    }
    assert lhs[n - 1] == rhs[n - 1];
    assert |lhs| == |rhs|;
  }

  // ---------------------------------------------------------------------------
  // Properties of the layout

  /** A longer prefix of the attributes never takes fewer bytes. */
  lemma {:induction false} PrefixSizeMonotone(attrs: seq<Attribute>, i: nat, j: nat)
    requires i <= j <= |attrs|
    ensures TotalSize(attrs[..i]) <= TotalSize(attrs[..j])
    decreases j - i
  {
    if i < j {
      PrefixSizeMonotone(attrs, i, j - 1);
      assert attrs[..j][..j - 1] == attrs[..j - 1];
      assert TotalSize(attrs[..j]) == TotalSize(attrs[..j - 1]) + Size(attrs[j - 1]);
    }
  }

  /** Attribute i ends where the prefix of i + 1 attributes ends. */
  lemma PrefixStep(attrs: seq<Attribute>, i: nat)
    requires i < |attrs|
    ensures TotalSize(attrs[..i + 1]) == TotalSize(attrs[..i]) + Size(attrs[i])
  {
    assert attrs[..i + 1][..i] == attrs[..i];
  }

  /** Each declared attribute starts where the one before it ends. */
  lemma LayoutConsecutive(attrs: seq<Attribute>, stride: int, i: nat)
    requires i + 1 < |attrs|
    ensures PointerAt(attrs, i, stride).offset + Size(attrs[i]) == PointerAt(attrs, i + 1, stride).offset
  {
    PrefixStep(attrs, i);
  }

  /** No two declared attributes overlap. */
  lemma LayoutDisjoint(attrs: seq<Attribute>, stride: int, i: nat, j: nat)
    requires i < j < |attrs|
    ensures PointerAt(attrs, i, stride).offset + Size(attrs[i]) <= PointerAt(attrs, j, stride).offset
  {
    PrefixStep(attrs, i);
    PrefixSizeMonotone(attrs, i + 1, j);
  }

  /** Every declared attribute lies inside the tightly packed stride, and the last one ends exactly there. */
  lemma LayoutFits(attrs: seq<Attribute>, stride: int, i: nat)
    requires i < |attrs|
    ensures PointerAt(attrs, i, stride).offset + Size(attrs[i]) <= TotalSize(attrs)
    ensures i == |attrs| - 1 ==> PointerAt(attrs, i, stride).offset + Size(attrs[i]) == TotalSize(attrs)
  {
    PrefixStep(attrs, i);
    PrefixSizeMonotone(attrs, i + 1, |attrs|);
    assert attrs[..|attrs|] == attrs;
  }

  /**
   The declared layout tiles the vertex: one declaration per attribute, at its own index,
   with its component count and GL type and the common stride; the first starts at offset 0,
   each next one where the previous ends, and the last ends at the attributes' total size.
   */
  lemma PointersLayout(attrs: seq<Attribute>, stride: int)
    ensures var ps := Pointers(attrs, stride);
      && |ps| == |attrs|
      && (forall i :: 0 <= i < |ps| ==>
            && ps[i].index == i && ps[i].count == attrs[i].count
            && ps[i].dataType == DataTypeOf(attrs[i].elemSize) && ps[i].stride == stride)
      && (|ps| > 0 ==> ps[0].offset == 0)
      && (forall i :: 0 <= i < |ps| - 1 ==> ps[i].offset + Size(attrs[i]) == ps[i + 1].offset)
      && (|ps| > 0 ==> ps[|ps| - 1].offset + Size(attrs[|ps| - 1]) == TotalSize(attrs))
  {
    var ps := Pointers(attrs, stride);
    forall i | 0 <= i < |ps| - 1
      ensures ps[i].offset + Size(attrs[i]) == ps[i + 1].offset
    {
      LayoutConsecutive(attrs, stride, i);
    }
    if |ps| > 0 {
      assert attrs[..0] == [];
      LayoutFits(attrs, stride, |attrs| - 1);
    }
  }

  /** After an accepted `setup` the first names are the attributes' names, in order. */
  lemma NamesRecorded(names: seq<string>, attrs: seq<Attribute>, stride: int, vertexSize: Pos)
    requires attrs != []
    requires stride != 0 && StrideAccepted(attrs, stride, vertexSize) ==> |attrs| <= |names|
    requires StrideAccepted(attrs, stride, vertexSize)
    ensures var r := NamesAfter(names, attrs, stride, vertexSize);
      |attrs| <= |r| && r[..|attrs|] == Names(attrs)
  {
    var r := NamesAfter(names, attrs, stride, vertexSize);
    assert TotalSize(attrs) != 0 || stride != 0;
    assert r[..|attrs|] == Names(attrs);
  }

  /** Repeating the same tightly packed `setup` leaves the names as the first one left them. */
  lemma PackedSetupIdempotent(names: seq<string>, attrs: seq<Attribute>, vertexSize: Pos)
    requires attrs != []
    ensures var once := NamesAfter(names, attrs, 0, vertexSize);
      NamesAfter(once, attrs, 0, vertexSize) == once
  {
    var once := NamesAfter(names, attrs, 0, vertexSize);
    var n := if TotalSize(attrs) == 0 then 1 else |attrs|;
    assert |once| == n;
    assert Resized(once, n, "") == once;
    if StrideAccepted(attrs, 0, vertexSize) {
      assert once == Names(attrs) + Resized(names, n, "")[|attrs|..];
      assert once[|attrs|..] == [];
    }
  }
}
