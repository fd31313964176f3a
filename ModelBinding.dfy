/** The GPU buffer lifecycle of one renderable model: a binding from a mesh
    (and an optional shader) to a vertex array, a vertex buffer and an
    optional index buffer, created lazily on the first render and torn down
    whenever the mesh changes or the binding is destroyed.

    The graphics driver is not modelled; every call the binding makes to it is
    recorded, in order, in a ghost log of `GLOp`s, and the driver's handle
    generator is a method that returns an arbitrary name (0 on failure). */
module ModelBinding {
  import opened Optional

  /** What the binding reads from the mesh it points at: the number of
      vertices, the number of 16-bit indices and the primitive topology. */
  datatype Mesh = Mesh(vertexCount: nat, indexCount: nat, primitive: nat)

  /** A shader program, identified by its native handle. */
  type ShaderId = nat

  datatype BufferTarget = ArrayBuffer | ElementArrayBuffer

  datatype AttribType = Float | Short | UnsignedByte

  /** One call into the graphics driver. `DrawElements` draws with 16-bit
      indices starting at offset 0 of the bound index buffer. */
  datatype GLOp =
    | ClearErrors
    | GenVertexArray(name: nat)
    | GenBuffer(name: nat)
    | BindVertexArray(name: nat)
    | BindBuffer(target: BufferTarget, name: nat)
    | BufferData(target: BufferTarget, bytes: nat)
    | BindShader(shader: ShaderId)
    | UnbindShader
    | EnableAttrib(slot: nat)
    | AttribPointer(slot: nat, components: nat, kind: AttribType, normalized: bool)
    | DrawElements(mode: nat, count: nat)
    | DrawArrays(mode: nat, first: nat, count: nat)
    | DisableAttrib(slot: nat)
    | DeleteVertexArray(name: nat)
    | DeleteBuffer(name: nat)

  /** Size of one index (uint16_t). */
  const IndexBytes: nat := 2

  /** Size of one vertex: 3 floats of position, 3 floats of normal, 2 shorts
      of texture coordinate and 4 bytes of colour, without padding. */
  const VertexBytes: nat := 32

  /** The GPU-resource fields of a binding: three driver handles (0 means
      none), the primitive topology and the draw count. */
  datatype Buffers = Buffers(vao: nat, vbo: nat, ibo: nat, primitive: nat, count: nat)

  const NoBuffers: Buffers := Buffers(0, 0, 0, 0, 0)

  /** Handles are only ever acquired in the order vertex array, vertex
      buffer, index buffer, and all released together, so the held handles
      always form a prefix of that order. */
  predicate InOrder(b: Buffers) {
    (b.vbo != 0 ==> b.vao != 0) && (b.ibo != 0 ==> b.vbo != 0)
  }

  /** The fields after an operation, and the driver calls it issued. */
  datatype Outcome = Outcome(buffers: Buffers, ops: seq<GLOp>)

  // ---------------------------------------------------------------------------
  // Counting driver calls

  datatype CallKind = Draw | ShaderBind | ShaderUnbind | VertexArrayGen | BufferGen | Delete | Other

  function Kind(op: GLOp): CallKind {
    match op
    case DrawElements(_, _) => Draw
    case DrawArrays(_, _, _) => Draw
    case BindShader(_) => ShaderBind
    case UnbindShader => ShaderUnbind
    case GenVertexArray(_) => VertexArrayGen
    case GenBuffer(_) => BufferGen
    case DeleteVertexArray(_) => Delete
    case DeleteBuffer(_) => Delete
    case _ => Other
  }

  /** The number of calls of kind `k` in `ops`. */
  function CountKind(ops: seq<GLOp>, k: CallKind): (n: nat)
    ensures n <= |ops|
  {
    if ops == [] then 0 else (if Kind(ops[0]) == k then 1 else 0) + CountKind(ops[1..], k)
  }

  lemma {:induction false} CountKindConcat(a: seq<GLOp>, b: seq<GLOp>, k: CallKind)
    ensures CountKind(a + b, k) == CountKind(a, k) + CountKind(b, k)
  {
    if a == [] {
      assert a + b == b;
    } else {
      assert (a + b)[1..] == a[1..] + b;
      CountKindConcat(a[1..], b, k);
    }
  }

  lemma {:induction false} CountKindAbsent(ops: seq<GLOp>, k: CallKind)
    requires forall op | op in ops :: Kind(op) != k
    ensures CountKind(ops, k) == 0
  {
    if ops != [] {
      assert forall op | op in ops[1..] :: op in ops;
      CountKindAbsent(ops[1..], k);
    }
  }

  lemma {:induction false} CountKindEvery(ops: seq<GLOp>, k: CallKind)
    requires forall op | op in ops :: Kind(op) == k
    ensures CountKind(ops, k) == |ops|
  {
    if ops != [] {
      assert ops[0] in ops;
      assert forall op | op in ops[1..] :: op in ops;
      CountKindEvery(ops[1..], k);
    }
  }

  /** Calls that neither draw, nor touch a shader, nor create or delete a
      handle. */
  predicate Neutral(s: seq<GLOp>) {
    forall op | op in s :: Kind(op) == Other
  }

  // ---------------------------------------------------------------------------
  // createVertexArrays

  /** Uploads the 16-bit index data. */
  function IndexUpload(ibo: nat, indexCount: nat): seq<GLOp>
  {
    [BindBuffer(ElementArrayBuffer, ibo), BufferData(ElementArrayBuffer, IndexBytes * indexCount),
     BindBuffer(ElementArrayBuffer, 0)]
  }

  /** Uploads the vertex data and unbinds the vertex array. */
  function VertexUpload(vbo: nat, vertexCount: nat): seq<GLOp>
  {
    [BindBuffer(ArrayBuffer, vbo), BufferData(ArrayBuffer, VertexBytes * vertexCount),
     BindBuffer(ArrayBuffer, 0), BindVertexArray(0)]
  }

  /** The calls allocation may issue: it never draws, never touches a shader
      and never deletes. */
  predicate AllocationCall(op: GLOp) {
    Kind(op) in {Other, VertexArrayGen, BufferGen}
  }

  /** Lazy allocation for mesh `m`, starting from fields `b`. A handle that is
      already non-zero is reused; a zero handle is generated, and the driver's
      answer is `newVao`, `newVbo` or `newIbo`. A zero answer ends the
      allocation there, leaving what was allocated so far in place. */
  function Create(b: Buffers, m: Mesh, newVao: nat, newVbo: nat, newIbo: nat): (r: Outcome)
    ensures r.buffers.primitive == b.primitive
    ensures b.vao != 0 ==> r.buffers.vao == b.vao
    ensures b.vbo != 0 ==> r.buffers.vbo == b.vbo
    ensures b.ibo != 0 ==> r.buffers.ibo == b.ibo
    ensures m.vertexCount == 0 ==> r == Outcome(b.(count := 0), [])
  {
    if m.vertexCount == 0 then Outcome(b.(count := 0), [])
    else
      var genVao := if b.vao == 0 then [GenVertexArray(newVao)] else [];
      var b1 := b.(count := m.vertexCount, vao := if b.vao == 0 then newVao else b.vao);
      if b1.vao == 0 then Outcome(b1, [ClearErrors] + genVao)
      else
        var c := CreateBuffers(b1, m, newVbo, newIbo);
        Outcome(c.buffers, [ClearErrors] + genVao + [BindVertexArray(b1.vao)] + c.ops)
  }

  /** The part of allocation after the vertex array is bound: the vertex
      buffer, then, for an indexed mesh, the index buffer and its data, then
      the vertex data. */
  function CreateBuffers(b: Buffers, m: Mesh, newVbo: nat, newIbo: nat): (r: Outcome)
    ensures r.buffers.vao == b.vao && r.buffers.primitive == b.primitive
    ensures b.vbo != 0 ==> r.buffers.vbo == b.vbo
    ensures b.ibo != 0 ==> r.buffers.ibo == b.ibo
  {
    var genVbo := if b.vbo == 0 then [GenBuffer(newVbo)] else [];
    var b2 := b.(vbo := if b.vbo == 0 then newVbo else b.vbo);
    if b2.vbo == 0 then Outcome(b2, genVbo)
    else if m.indexCount == 0 then Outcome(b2, genVbo + VertexUpload(b2.vbo, m.vertexCount))
    else
      var c := CreateIndexBuffer(b2.(count := m.indexCount), m, newIbo);
      if c.buffers.ibo == 0 then Outcome(c.buffers, genVbo + c.ops)
      else Outcome(c.buffers, genVbo + c.ops + VertexUpload(b2.vbo, m.vertexCount))
  }

  /** The index buffer and its data. */
  function CreateIndexBuffer(b: Buffers, m: Mesh, newIbo: nat): (r: Outcome)
    ensures r.buffers == b.(ibo := r.buffers.ibo)
    ensures b.ibo != 0 ==> r.buffers.ibo == b.ibo
  {
    var genIbo := if b.ibo == 0 then [GenBuffer(newIbo)] else [];
    var b3 := b.(ibo := if b.ibo == 0 then newIbo else b.ibo);
    if b3.ibo == 0 then Outcome(b3, genIbo)
    else Outcome(b3, genIbo + IndexUpload(b3.ibo, m.indexCount))
  }

  /** Allocation never draws, never touches a shader and never deletes. */
  lemma CreateIssuesOnlyAllocationCalls(b: Buffers, m: Mesh, newVao: nat, newVbo: nat, newIbo: nat)
    ensures forall op | op in Create(b, m, newVao, newVbo, newIbo).ops :: AllocationCall(op)
  {
    if m.vertexCount > 0 {
      var vao := if b.vao == 0 then newVao else b.vao;
      var vbo := if b.vbo == 0 then newVbo else b.vbo;
      var ibo := if b.ibo == 0 then newIbo else b.ibo;
      assert Neutral(VertexUpload(vbo, m.vertexCount));
      assert Neutral(IndexUpload(ibo, m.indexCount));
    }
  }

  /** Allocation, even when it stops part-way, keeps the held handles a
      prefix of the acquisition order. */
  lemma CreateKeepsOrder(b: Buffers, m: Mesh, newVao: nat, newVbo: nat, newIbo: nat)
    requires InOrder(b)
    ensures InOrder(Create(b, m, newVao, newVbo, newIbo).buffers)
  {
  }

  /** The draw count becomes the index count once the vertex array and the
      vertex buffer exist and the mesh has indices, and the vertex count
      otherwise; vertex and index data are uploaded exactly when every handle
      the mesh needs exists. */
  lemma CreateCountAndUpload(b: Buffers, m: Mesh, newVao: nat, newVbo: nat, newIbo: nat)
    requires m.vertexCount > 0
    ensures var r := Create(b, m, newVao, newVbo, newIbo);
      && r.buffers.count == (if r.buffers.vao != 0 && r.buffers.vbo != 0 && m.indexCount > 0
                             then m.indexCount else m.vertexCount)
      && (BufferData(ArrayBuffer, VertexBytes * m.vertexCount) in r.ops <==>
          r.buffers.vao != 0 && r.buffers.vbo != 0 && (m.indexCount > 0 ==> r.buffers.ibo != 0))
      && (BufferData(ElementArrayBuffer, IndexBytes * m.indexCount) in r.ops <==>
          r.buffers.vao != 0 && r.buffers.vbo != 0 && r.buffers.ibo != 0 && m.indexCount > 0)
  {
    var r := Create(b, m, newVao, newVbo, newIbo);
    var vao := if b.vao == 0 then newVao else b.vao;
    var vbo := if b.vbo == 0 then newVbo else b.vbo;
    var ibo := if b.ibo == 0 then newIbo else b.ibo;
    if vao != 0 && vbo != 0 && m.indexCount > 0 && ibo != 0 {
      assert IndexUpload(ibo, m.indexCount)[1] in r.ops;
      assert VertexUpload(vbo, m.vertexCount)[1] in r.ops;
    } else if vao != 0 && vbo != 0 && m.indexCount == 0 {
      assert VertexUpload(vbo, m.vertexCount)[1] in r.ops;
    }
  }

  /** Which handle each generation call in a list of calls fills in. */
  predicate GeneratesOnly(ops: seq<GLOp>, vao: Option<nat>, vbo: Option<nat>, ibo: Option<nat>) {
    forall op | op in ops ::
      && (op.GenVertexArray? ==> vao == Some(op.name))
      && (op.GenBuffer? ==> vbo == Some(op.name) || ibo == Some(op.name))
  }

  /** The generated handle for a field that was zero, and nothing for one that
      was already held. */
  function Fresh(held: nat, now: nat): Option<nat> {
    if held == 0 then Some(now) else None
  }

  lemma GeneratesOnlyConcat(a: seq<GLOp>, b: seq<GLOp>, vao: Option<nat>, vbo: Option<nat>, ibo: Option<nat>)
    requires GeneratesOnly(a, vao, vbo, ibo) && GeneratesOnly(b, vao, vbo, ibo)
    ensures GeneratesOnly(a + b, vao, vbo, ibo)
  {
  }

  lemma IndexBufferGeneratesOnlyMissing(b: Buffers, m: Mesh, newIbo: nat)
    ensures var r := CreateIndexBuffer(b, m, newIbo);
      GeneratesOnly(r.ops, None, None, Fresh(b.ibo, r.buffers.ibo))
  {
    assert Neutral(IndexUpload(if b.ibo == 0 then newIbo else b.ibo, m.indexCount));
  }

  lemma BuffersGenerateOnlyMissing(b: Buffers, m: Mesh, newVbo: nat, newIbo: nat)
    ensures var r := CreateBuffers(b, m, newVbo, newIbo);
      GeneratesOnly(r.ops, None, Fresh(b.vbo, r.buffers.vbo), Fresh(b.ibo, r.buffers.ibo))
  {
    var r := CreateBuffers(b, m, newVbo, newIbo);
    var vbo := if b.vbo == 0 then newVbo else b.vbo;
    var genVbo := if b.vbo == 0 then [GenBuffer(newVbo)] else [];
    var upload := VertexUpload(vbo, m.vertexCount);
    var gens := (None, Fresh(b.vbo, r.buffers.vbo), Fresh(b.ibo, r.buffers.ibo));
    assert GeneratesOnly(genVbo, gens.0, gens.1, gens.2);
    assert GeneratesOnly(upload, gens.0, gens.1, gens.2);
    if vbo != 0 && m.indexCount == 0 {
      GeneratesOnlyConcat(genVbo, upload, gens.0, gens.1, gens.2);
    } else if vbo != 0 {
      var c := CreateIndexBuffer(b.(vbo := vbo, count := m.indexCount), m, newIbo);
      IndexBufferGeneratesOnlyMissing(b.(vbo := vbo, count := m.indexCount), m, newIbo);
      GeneratesOnlyConcat(genVbo, c.ops, gens.0, gens.1, gens.2);
      GeneratesOnlyConcat(genVbo + c.ops, upload, gens.0, gens.1, gens.2);
    }
  }

  /** A handle is generated only while it is zero, and the driver's answer is
      what the field then holds; so allocation reuses what exists. */
  lemma CreateGeneratesOnlyMissingHandles(b: Buffers, m: Mesh, newVao: nat, newVbo: nat, newIbo: nat)
    ensures var r := Create(b, m, newVao, newVbo, newIbo);
      GeneratesOnly(r.ops, Fresh(b.vao, r.buffers.vao), Fresh(b.vbo, r.buffers.vbo), Fresh(b.ibo, r.buffers.ibo))
  {
    var vao := if b.vao == 0 then newVao else b.vao;
    BuffersGenerateOnlyMissing(b.(count := m.vertexCount, vao := vao), m, newVbo, newIbo);
  }

  // ---------------------------------------------------------------------------
  // The draw path of render

  function ShaderOn(shader: Option<ShaderId>): seq<GLOp> {
    if shader.Some? then [BindShader(shader.value)] else []
  }

  function ShaderOff(shader: Option<ShaderId>): seq<GLOp> {
    if shader.Some? then [UnbindShader] else []
  }

  /** Binds the vertex array, the vertex buffer and, when held, the index
      buffer. */
  function BindPhase(b: Buffers): (s: seq<GLOp>)
  {
    [ClearErrors, BindVertexArray(b.vao), BindBuffer(ArrayBuffer, b.vbo)]
    + (if b.ibo != 0 then [BindBuffer(ElementArrayBuffer, b.ibo)] else [])
  }

  function EnablePhase(): (s: seq<GLOp>)
  {
    [EnableAttrib(0), EnableAttrib(1), EnableAttrib(2), EnableAttrib(3)]
  }

  /** The fixed vertex layout: slot 0 position, 1 normal, 2 texture
      coordinate, 3 colour; all but the position are normalised. */
  function LayoutPhase(): (s: seq<GLOp>)
  {
    [AttribPointer(0, 3, Float, false), AttribPointer(1, 3, Float, true),
     AttribPointer(2, 2, Short, true), AttribPointer(3, 4, UnsignedByte, true)]
  }

  function DisablePhase(): (s: seq<GLOp>)
  {
    [DisableAttrib(0), DisableAttrib(1), DisableAttrib(2), DisableAttrib(3)]
  }

  /** Unbinds the buffers bound by `BindPhase`, then the vertex array. */
  function UnbindPhase(b: Buffers): (s: seq<GLOp>)
  {
    [BindBuffer(ArrayBuffer, 0)]
    + (if b.ibo != 0 then [BindBuffer(ElementArrayBuffer, 0)] else [])
    + [BindVertexArray(0)]
  }

  /** None of the phases around the draw call draws, touches a shader or
      creates or deletes a handle; the slots enabled before the draw are the
      slots disabled after it. */
  lemma DrawPhasesNeutral(b: Buffers)
    ensures Neutral(BindPhase(b)) && Neutral(EnablePhase()) && Neutral(LayoutPhase())
    ensures Neutral(DisablePhase()) && Neutral(UnbindPhase(b))
    ensures forall slot | 0 <= slot < 4 :: EnableAttrib(slot) in EnablePhase()
    ensures forall slot | 0 <= slot < 4 :: DisableAttrib(slot) in DisablePhase()
  {
  }

  /** The draw call: indexed exactly when an index buffer is held. */
  function DrawCall(b: Buffers): (op: GLOp)
    ensures Kind(op) == Draw
    ensures op.DrawElements? <==> b.ibo != 0
    ensures op.DrawArrays? ==> op.first == 0
    ensures op.mode == b.primitive && op.count == b.count
  {
    if b.ibo != 0 then DrawElements(b.primitive, b.count) else DrawArrays(b.primitive, 0, b.count)
  }

  /** Everything issued before the draw, and everything after it. */
  function BeforeDraw(b: Buffers, shader: Option<ShaderId>): seq<GLOp> {
    ShaderOn(shader) + BindPhase(b) + EnablePhase() + LayoutPhase()
  }

  function AfterDraw(b: Buffers, shader: Option<ShaderId>): seq<GLOp> {
    DisablePhase() + UnbindPhase(b) + ShaderOff(shader)
  }

  /** The calls render issues once the vertex array exists: the error flag
      is cleared right after a non-null shader is bound, the draw call comes
      after the whole set-up, and the shader is unbound last. */
  function DrawOps(b: Buffers, shader: Option<ShaderId>): (r: seq<GLOp>)
    ensures |ShaderOn(shader)| < |BeforeDraw(b, shader)| < |r|
    ensures r[|ShaderOn(shader)|] == ClearErrors
    ensures r[|BeforeDraw(b, shader)|] == DrawCall(b)
    ensures shader.Some? ==> r[0] == BindShader(shader.value) && r[|r| - 1] == UnbindShader
  {
    BeforeDraw(b, shader) + [DrawCall(b)] + AfterDraw(b, shader)
  }

  /** Before the draw: a non-null shader is bound first and exactly once,
      nothing is drawn, unbound, created or deleted, and all four attribute
      slots are enabled. */
  lemma BeforeDrawProtocol(b: Buffers, shader: Option<ShaderId>)
    ensures var s := BeforeDraw(b, shader);
      && (forall k | k != ShaderBind && k != Other :: CountKind(s, k) == 0)
      && CountKind(s, ShaderBind) == (if shader.Some? then 1 else 0)
      && (shader.Some? ==> s[0] == BindShader(shader.value))
      && (forall slot | 0 <= slot < 4 :: EnableAttrib(slot) in s)
  {
    DrawPhasesNeutral(b);
    var rest := BindPhase(b) + EnablePhase() + LayoutPhase();
    assert BeforeDraw(b, shader) == ShaderOn(shader) + rest;
    assert Neutral(rest);
    forall k | k != Other
      ensures CountKind(BeforeDraw(b, shader), k) == CountKind(ShaderOn(shader), k)
    {
      CountKindConcat(ShaderOn(shader), rest, k);
      CountKindAbsent(rest, k);
    }
  }

  /** After the draw: all four attribute slots are disabled and a non-null
      shader is unbound last and exactly once; nothing is drawn, bound,
      created or deleted. */
  lemma AfterDrawProtocol(b: Buffers, shader: Option<ShaderId>)
    ensures var s := AfterDraw(b, shader);
      && (forall k | k != ShaderUnbind && k != Other :: CountKind(s, k) == 0)
      && CountKind(s, ShaderUnbind) == (if shader.Some? then 1 else 0)
      && (shader.Some? ==> s[|s| - 1] == UnbindShader)
      && (forall slot | 0 <= slot < 4 :: DisableAttrib(slot) in s)
  {
    DrawPhasesNeutral(b);
    var rest := DisablePhase() + UnbindPhase(b);
    assert AfterDraw(b, shader) == rest + ShaderOff(shader);
    assert Neutral(rest);
    forall k | k != Other
      ensures CountKind(AfterDraw(b, shader), k) == CountKind(ShaderOff(shader), k)
    {
      CountKindConcat(rest, ShaderOff(shader), k);
      CountKindAbsent(rest, k);
    }
  }

  lemma DrawOpsCount(b: Buffers, shader: Option<ShaderId>, k: CallKind)
    ensures CountKind(DrawOps(b, shader), k)
      == CountKind(BeforeDraw(b, shader), k) + CountKind([DrawCall(b)], k) + CountKind(AfterDraw(b, shader), k)
  {
    CountKindConcat(BeforeDraw(b, shader), [DrawCall(b)], k);
    CountKindConcat(BeforeDraw(b, shader) + [DrawCall(b)], AfterDraw(b, shader), k);
  }

  /** The whole draw path draws exactly once, binds a non-null shader exactly
      as often as it unbinds it, and never creates or deletes a handle. */
  lemma DrawOpsCounts(b: Buffers, shader: Option<ShaderId>)
    ensures var ops := DrawOps(b, shader);
      && CountKind(ops, Draw) == 1
      && CountKind(ops, ShaderBind) == CountKind(ops, ShaderUnbind) == (if shader.Some? then 1 else 0)
      && CountKind(ops, VertexArrayGen) == CountKind(ops, BufferGen) == CountKind(ops, Delete) == 0
  {
    BeforeDrawProtocol(b, shader);
    AfterDrawProtocol(b, shader);
    DrawOpsCount(b, shader, Draw);
    DrawOpsCount(b, shader, ShaderBind);
    DrawOpsCount(b, shader, ShaderUnbind);
    DrawOpsCount(b, shader, VertexArrayGen);
    DrawOpsCount(b, shader, BufferGen);
    DrawOpsCount(b, shader, Delete);
  }

  // ---------------------------------------------------------------------------
  // render

  /** Stated once on plain sequences, where it is cheap, so that methods
      extending the call log do not re-derive it element by element. */
  lemma AppendAssoc(a: seq<GLOp>, b: seq<GLOp>, c: seq<GLOp>)
    ensures a + (b + c) == a + b + c
  {
  }

  /** One call of render from fields `b`: nothing without a mesh; otherwise
      allocation while no vertex array is held (with the driver's answers),
      and the draw path once a vertex array exists. */
  function RenderSpec(b: Buffers, mesh: Option<Mesh>, shader: Option<ShaderId>,
                      newVao: nat, newVbo: nat, newIbo: nat): (r: Outcome)
    ensures mesh.None? ==> r == Outcome(b, [])
    ensures mesh.Some? && mesh.value.vertexCount == 0 && b.vao == 0 ==>
      r == Outcome(b.(count := 0), [])
    ensures b.vao != 0 ==> r.buffers == b
    ensures r.buffers.primitive == b.primitive
  {
    if mesh.None? then Outcome(b, [])
    else if b.vao == 0 then
      var c := Create(b, mesh.value, newVao, newVbo, newIbo);
      if c.buffers.vao == 0 then c else Outcome(c.buffers, c.ops + DrawOps(c.buffers, shader))
    else Outcome(b, DrawOps(b, shader))
  }

  lemma AllocationCounts(ops: seq<GLOp>)
    requires forall op | op in ops :: AllocationCall(op)
    ensures CountKind(ops, Draw) == CountKind(ops, ShaderBind) == CountKind(ops, ShaderUnbind) == 0
    ensures CountKind(ops, Delete) == 0
  {
    CountKindAbsent(ops, Draw);
    CountKindAbsent(ops, ShaderBind);
    CountKindAbsent(ops, ShaderUnbind);
    CountKindAbsent(ops, Delete);
  }

  /** Every render draws at most once, and exactly when there is a mesh and a
      vertex array; a non-null shader is bound exactly when it draws, every
      bind is matched by an unbind, and nothing is ever deleted. */
  lemma RenderProtocol(b: Buffers, mesh: Option<Mesh>, shader: Option<ShaderId>,
                       newVao: nat, newVbo: nat, newIbo: nat)
    ensures var r := RenderSpec(b, mesh, shader, newVao, newVbo, newIbo);
      && CountKind(r.ops, Draw) == (if mesh.Some? && r.buffers.vao != 0 then 1 else 0)
      && CountKind(r.ops, ShaderBind) == CountKind(r.ops, ShaderUnbind)
      && CountKind(r.ops, ShaderBind) == (if shader.Some? then CountKind(r.ops, Draw) else 0)
      && CountKind(r.ops, Delete) == 0
  {
    if mesh.Some? {
      if b.vao == 0 {
        var c := Create(b, mesh.value, newVao, newVbo, newIbo);
        CreateIssuesOnlyAllocationCalls(b, mesh.value, newVao, newVbo, newIbo);
        AllocationCounts(c.ops);
        if c.buffers.vao != 0 {
          var d := DrawOps(c.buffers, shader);
          DrawOpsCounts(c.buffers, shader);
          CountKindConcat(c.ops, d, Draw);
          CountKindConcat(c.ops, d, ShaderBind);
          CountKindConcat(c.ops, d, ShaderUnbind);
          CountKindConcat(c.ops, d, Delete);
        }
      } else {
        DrawOpsCounts(b, shader);
      }
    }
  }

  /** The draw uses the index count, indexed, when the mesh has indices and the
      vertex count, non-indexed from offset 0, otherwise — provided the driver
      hands out every handle the first render asks for. */
  lemma FirstRenderDrawCount(primitive: nat, m: Mesh, shader: Option<ShaderId>,
                             newVao: nat, newVbo: nat, newIbo: nat)
    requires m.vertexCount > 0 && newVao != 0 && newVbo != 0 && newIbo != 0
    ensures var r := RenderSpec(Buffers(0, 0, 0, primitive, 0), Some(m), shader, newVao, newVbo, newIbo);
      && r.ops[|r.ops| - |AfterDraw(r.buffers, shader)| - 1] ==
         (if m.indexCount > 0 then DrawElements(primitive, m.indexCount)
          else DrawArrays(primitive, 0, m.vertexCount))
  {
    var b := Buffers(0, 0, 0, primitive, 0);
    CreateCountAndUpload(b, m, newVao, newVbo, newIbo);
  }

  /** A failed vertex-buffer generation is never repaired: the vertex array is
      kept, so the next render does not retry allocation and draws
      non-indexed with buffer name 0 bound as the vertex buffer. */
  lemma VertexBufferFailurePersists(primitive: nat, m: Mesh, shader: Option<ShaderId>,
                                    newVao: nat, a: nat, c: nat, e: nat)
    requires m.vertexCount > 0 && newVao != 0
    ensures var first := RenderSpec(Buffers(0, 0, 0, primitive, 0), Some(m), shader, newVao, 0, a);
      var second := RenderSpec(first.buffers, Some(m), shader, c, 0, e);
      && first.buffers == Buffers(newVao, 0, 0, primitive, m.vertexCount)
      && second == Outcome(first.buffers, DrawOps(first.buffers, shader))
      && BindBuffer(ArrayBuffer, 0) in BindPhase(first.buffers)
      && DrawCall(first.buffers) == DrawArrays(primitive, 0, m.vertexCount)
  {
    assert BindPhase(Buffers(newVao, 0, 0, primitive, m.vertexCount))[2] == BindBuffer(ArrayBuffer, 0);
  }

  /** A failed index-buffer generation leaves the draw count at the index
      count with no index buffer and no data uploaded: the same render then
      draws that many vertices non-indexed. */
  lemma IndexBufferFailureDrawsIndexCount(primitive: nat, m: Mesh, shader: Option<ShaderId>,
                                          newVao: nat, newVbo: nat)
    requires m.vertexCount > 0 && m.indexCount > 0 && newVao != 0 && newVbo != 0
    ensures var b := Buffers(0, 0, 0, primitive, 0);
      var r := RenderSpec(b, Some(m), shader, newVao, newVbo, 0);
      && r.buffers == Buffers(newVao, newVbo, 0, primitive, m.indexCount)
      && (forall op | op in Create(b, m, newVao, newVbo, 0).ops :: !op.BufferData?)
      && DrawCall(r.buffers) == DrawArrays(primitive, 0, m.indexCount)
  {
    var b := Buffers(0, 0, 0, primitive, 0);
    assert Create(b, m, newVao, newVbo, 0).ops
      == [ClearErrors, GenVertexArray(newVao), BindVertexArray(newVao), GenBuffer(newVbo), GenBuffer(0)];
  }

  // ---------------------------------------------------------------------------
  // destroyVertexArrays

  /** Deletes the held handles, vertex array first. */
  function DestroyOps(b: Buffers): (s: seq<GLOp>)
    ensures b.vao == 0 && b.vbo == 0 && b.ibo == 0 ==> s == []
  {
    (if b.vao != 0 then [DeleteVertexArray(b.vao)] else [])
    + (if b.vbo != 0 then [DeleteBuffer(b.vbo)] else [])
    + (if b.ibo != 0 then [DeleteBuffer(b.ibo)] else [])
  }

  /** Exactly the non-zero handles are deleted, each once: a vertex array name
      is deleted iff it is the held one, a buffer name iff it is one of the
      held buffers, and there is one delete per non-zero handle. */
  lemma DestroyDeletesHeldHandles(b: Buffers)
    ensures var s := DestroyOps(b);
      && (forall n :: DeleteVertexArray(n) in s <==> n != 0 && n == b.vao)
      && (forall n :: DeleteBuffer(n) in s <==> n != 0 && (n == b.vbo || n == b.ibo))
      && CountKind(s, Delete) == |s|
      && |s| == (if b.vao != 0 then 1 else 0) + (if b.vbo != 0 then 1 else 0) + (if b.ibo != 0 then 1 else 0)
  {
    CountKindEvery(DestroyOps(b), Delete);
  }

  // ---------------------------------------------------------------------------
  // The binding itself

  /** The driver generating a name: any name, 0 meaning failure. */
  method GenerateName() returns (name: nat)
  {
    name := *;
  }

  class ClientModel {
    /** The mesh and shader pointed at; neither is owned. */
    var mesh: Option<Mesh>
    var shader: Option<ShaderId>

    var vao: nat
    var vbo: nat
    var ibo: nat
    var primitive: nat
    var count: nat

    /** Every driver call made on this binding's behalf, in order. */
    ghost var ops: seq<GLOp>

    function State(): Buffers
      reads this
    {
      Buffers(vao, vbo, ibo, primitive, count)
    }

    predicate Valid()
      reads this
    {
      InOrder(State())
    }

    constructor (mesh: Option<Mesh>, shader: Option<ShaderId>)
      ensures this.mesh == mesh && this.shader == shader
      ensures State() == NoBuffers && ops == [] && Valid()
    {
      this.mesh, this.shader := mesh, shader;
      vao, vbo, ibo, primitive, count := 0, 0, 0, 0, 0;
      ops := [];
    }

    constructor FromMesh(m: Mesh)
      ensures mesh == Some(m) && shader == None
      ensures State() == NoBuffers && ops == [] && Valid()
    {
      mesh, shader := Some(m), None;
      vao, vbo, ibo, primitive, count := 0, 0, 0, 0, 0;
      ops := [];
    }

    constructor WithShader(m: Mesh, s: ShaderId)
      ensures mesh == Some(m) && shader == Some(s)
      ensures State() == NoBuffers && ops == [] && Valid()
    {
      mesh, shader := Some(m), Some(s);
      vao, vbo, ibo, primitive, count := 0, 0, 0, 0, 0;
      ops := [];
    }

    /** Records one driver call. */
    ghost method Emit(op: GLOp)
      modifies this`ops
      ensures ops == old(ops) + [op]
    {
      ops := ops + [op];
    }

    method UploadIndices(indexCount: nat)
      modifies this`ops
      ensures ops == old(ops) + IndexUpload(ibo, indexCount)
    {
      Emit(BindBuffer(ElementArrayBuffer, ibo));
      Emit(BufferData(ElementArrayBuffer, IndexBytes * indexCount));
      Emit(BindBuffer(ElementArrayBuffer, 0));
    }

    method UploadVertices(vertexCount: nat)
      modifies this`ops
      ensures ops == old(ops) + VertexUpload(vbo, vertexCount)
    {
      Emit(BindBuffer(ArrayBuffer, vbo));
      Emit(BufferData(ArrayBuffer, VertexBytes * vertexCount));
      Emit(BindBuffer(ArrayBuffer, 0));
      Emit(BindVertexArray(0));
    }

    method CreateVertexArrays()
      requires Valid()
      modifies this`vao, this`vbo, this`ibo, this`count, this`ops
      ensures Valid()
      ensures mesh.None? ==> State() == old(State()) && ops == old(ops)
      ensures mesh.Some? ==>
        var r := Create(old(State()), mesh.value, vao, vbo, ibo);
        State() == r.buffers && ops == old(ops) + r.ops
    {
      if mesh.Some? {
        var m := mesh.value;
        count := m.vertexCount;
        if count == 0 {
          return;
        }
        Emit(ClearErrors);
        if vao == 0 {
          vao := GenerateName();
          Emit(GenVertexArray(vao));
          if vao == 0 {
            return;
          }
        }
        Emit(BindVertexArray(vao));
        ghost var b1 := State();
        ghost var prefix := [ClearErrors] + (if old(vao) == 0 then [GenVertexArray(vao)] else []) + [BindVertexArray(vao)];
        assert ops == old(ops) + prefix;
        AllocateBuffers(m);
        AppendAssoc(old(ops), prefix, CreateBuffers(b1, m, vbo, ibo).ops);
      }
    }

    method AllocateBuffers(m: Mesh)
      requires Valid() && vao != 0
      modifies this`vbo, this`ibo, this`count, this`ops
      ensures Valid()
      ensures var r := CreateBuffers(old(State()), m, vbo, ibo);
        State() == r.buffers && ops == old(ops) + r.ops
    {
      if vbo == 0 {
        vbo := GenerateName();
        Emit(GenBuffer(vbo));
        if vbo == 0 {
          return;
        }
      }
      if m.indexCount > 0 {
        count := m.indexCount;
        AllocateIndexBuffer(m);
        if ibo == 0 {
          return;
        }
      }
      UploadVertices(m.vertexCount);
    }

    method AllocateIndexBuffer(m: Mesh)
      requires Valid() && vbo != 0
      modifies this`ibo, this`ops
      ensures Valid()
      ensures var r := CreateIndexBuffer(old(State()), m, ibo);
        State() == r.buffers && ops == old(ops) + r.ops
    {
      if ibo == 0 {
        ibo := GenerateName();
        Emit(GenBuffer(ibo));
        if ibo == 0 {
          return;
        }
      }
      UploadIndices(m.indexCount);
    }

    method BindForDraw()
      modifies this`ops
      ensures ops == old(ops) + BindPhase(State())
    {
      Emit(ClearErrors);
      Emit(BindVertexArray(vao));
      Emit(BindBuffer(ArrayBuffer, vbo));
      if ibo != 0 {
        Emit(BindBuffer(ElementArrayBuffer, ibo));
      }
    }

    method EnableSlots()
      modifies this`ops
      ensures ops == old(ops) + EnablePhase()
    {
      Emit(EnableAttrib(0));
      Emit(EnableAttrib(1));
      Emit(EnableAttrib(2));
      Emit(EnableAttrib(3));
    }

    method SetLayout()
      modifies this`ops
      ensures ops == old(ops) + LayoutPhase()
    {
      Emit(AttribPointer(0, 3, Float, false));
      Emit(AttribPointer(1, 3, Float, true));
      Emit(AttribPointer(2, 2, Short, true));
      Emit(AttribPointer(3, 4, UnsignedByte, true));
    }

    method DisableSlots()
      modifies this`ops
      ensures ops == old(ops) + DisablePhase()
    {
      Emit(DisableAttrib(0));
      Emit(DisableAttrib(1));
      Emit(DisableAttrib(2));
      Emit(DisableAttrib(3));
    }

    method UnbindAfterDraw()
      modifies this`ops
      ensures ops == old(ops) + UnbindPhase(State())
    {
      Emit(BindBuffer(ArrayBuffer, 0));
      if ibo != 0 {
        Emit(BindBuffer(ElementArrayBuffer, 0));
      }
      Emit(BindVertexArray(0));
    }

    /** Everything render issues before the draw call. */
    method PrepareDraw()
      modifies this`ops
      ensures ops == old(ops) + BeforeDraw(State(), shader)
    {
      if shader.Some? {
        Emit(BindShader(shader.value));
      }
      BindForDraw();
      EnableSlots();
      SetLayout();
    }

    /** Everything render issues after the draw call. */
    method FinishDraw()
      modifies this`ops
      ensures ops == old(ops) + AfterDraw(State(), shader)
    {
      DisableSlots();
      UnbindAfterDraw();
      if shader.Some? {
        Emit(UnbindShader);
      }
    }

    /** The draw path, once a vertex array is held. */
    method Draw()
      modifies this`ops
      ensures ops == old(ops) + DrawOps(State(), shader)
    {
      PrepareDraw();
      Emit(DrawCall(State()));
      FinishDraw();
      AppendAssoc(old(ops), BeforeDraw(State(), shader) + [DrawCall(State())], AfterDraw(State(), shader));
    }

    method Render()
      requires Valid()
      modifies this`vao, this`vbo, this`ibo, this`count, this`ops
      ensures Valid()
      ensures var r := RenderSpec(old(State()), mesh, shader, vao, vbo, ibo);
        State() == r.buffers && ops == old(ops) + r.ops
    {
      if mesh.Some? {
        if vao == 0 {
          CreateVertexArrays();
          ghost var c := Create(old(State()), mesh.value, vao, vbo, ibo);
          if vao == 0 {
            return;
          }
          Draw();
          AppendAssoc(old(ops), c.ops, DrawOps(c.buffers, shader));
        } else {
          Draw();
        }
      }
    }

    method DestroyVertexArrays()
      modifies this`vao, this`vbo, this`ibo, this`primitive, this`count, this`ops
      ensures State() == NoBuffers && Valid()
      ensures ops == old(ops) + DestroyOps(old(State()))
    {
      if vao != 0 {
        Emit(DeleteVertexArray(vao));
        vao := 0;
      }
      if vbo != 0 {
        Emit(DeleteBuffer(vbo));
        vbo := 0;
      }
      if ibo != 0 {
        Emit(DeleteBuffer(ibo));
        ibo := 0;
      }
      primitive := 0;
      count := 0;
    }

    /** Points the binding at another mesh (or none), tearing down first. */
    method SetModel(m: Option<Mesh>)
      modifies this`mesh, this`vao, this`vbo, this`ibo, this`primitive, this`count, this`ops
      ensures mesh == m && shader == old(shader) && Valid()
      ensures State() == NoBuffers.(primitive := if m.Some? then m.value.primitive else 0)
      ensures ops == old(ops) + DestroyOps(old(State()))
    {
      DestroyVertexArrays();
      mesh := m;
      if mesh.Some? {
        primitive := mesh.value.primitive;
      }
    }

    method SetShader(s: Option<ShaderId>)
      modifies this`shader
      ensures shader == s
    {
      shader := s;
    }

    /** The destructor: tears down the GPU resources. */
    method Dispose()
      modifies this`vao, this`vbo, this`ibo, this`primitive, this`count, this`ops
      ensures State() == NoBuffers
      ensures ops == old(ops) + DestroyOps(old(State()))
    {
      DestroyVertexArrays();
    }
  }

  /** Tearing down twice issues no second round of deletes. */
  method DestroyTwice(model: ClientModel)
    modifies model
    ensures model.State() == NoBuffers
    ensures model.ops == old(model.ops) + DestroyOps(old(model.State()))
  {
    model.DestroyVertexArrays();
    model.DestroyVertexArrays();
  }

  /** Changing the shader leaves the buffers, the draw count and the call log
      as they were, so it never forces a re-allocation. */
  method ShaderChangeKeepsBuffers(model: ClientModel, s: Option<ShaderId>)
    modifies model
    ensures model.shader == s && model.mesh == old(model.mesh)
    ensures model.State() == old(model.State()) && model.ops == old(model.ops)
  {
    model.SetShader(s);
  }
}
