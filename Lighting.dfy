/** The light slots of the 3D pass: the cone-cosine refresh over the light
    registry, the choice of the light that fills each of the four shader
    slots, and the named uniform values uploaded for each slot. */
module Lighting {
  import opened Optional
  import opened Geometry

  datatype LightType = Point | Spot | Directional

  /** One light, field for field. Angles are in degrees; the two cosine
      fields cache the cosines of the two cone angles. */
  datatype Light = Light(
    kind: LightType,
    ambtColor: Vec4,
    diffColor: Vec4,
    specColor: Vec4,
    position: Vec4,
    halfVector: Vec3,
    spotDirection: Vec3,
    spotExponent: real,
    spotConeInner: real,
    spotConeOuter: real,
    spotConeInnerCos: real,
    spotConeOuterCos: real,
    attenuation: Vec3)

  /** The statically allocated fallback light: zero-initialised in every
      field, so its kind is the first enumerator. */
  const DefaultLight: Light :=
    Light(Point, Zero4, Zero4, Zero4, Zero4, Zero3, Zero3, 0.0, 0.0, 0.0, 0.0, 0.0, Zero3)

  /** Number of light slots the shaders declare. */
  const SlotCount: nat := 4

  /** Size of the character buffer the uniform names are formatted into,
      terminating NUL included. */
  const NameBufferSize: nat := 32

  /** The per-light uniform fields, in upload order. */
  const FieldNames: seq<string> := [
    "ambtColor", "diffColor", "specColor", "position", "spotDirection",
    "spotExponent", "spotConeInner", "spotConeInnerCos", "spotConeOuter",
    "spotConeOuterCos", "attenuation"]

  const FieldCount: nat := 11

  // ---------------------------------------------------------------------
  // Cone cosines
  // ---------------------------------------------------------------------

  /** A light with both cone cosines recomputed from its cone angles by
      `cosDeg` (cosine of an angle in degrees); no other field changes. */
  function WithCosines(light: Light, cosDeg: real -> real): (r: Light)
    ensures r.spotConeInnerCos == cosDeg(light.spotConeInner)
    ensures r.spotConeOuterCos == cosDeg(light.spotConeOuter)
    ensures r.(spotConeInnerCos := light.spotConeInnerCos, spotConeOuterCos := light.spotConeOuterCos) == light
  {
    light.(spotConeInnerCos := cosDeg(light.spotConeInner), spotConeOuterCos := cosDeg(light.spotConeOuter))
  }

  /** The refresh depends only on fields it does not write, so a second
      refresh in the same frame changes nothing. */
  lemma WithCosinesIdempotent(light: Light, cosDeg: real -> real)
    ensures WithCosines(WithCosines(light, cosDeg), cosDeg) == WithCosines(light, cosDeg)
  {
  }

  /** Recomputes the cone cosines of every registered light, in place. Every
      entry is dereferenced, so every entry must be present. */
  method RefreshCosines(registry: array<Option<Light>>, cosDeg: real -> real)
    requires forall i :: 0 <= i < registry.Length ==> registry[i].Some?
    modifies registry
    ensures forall i :: 0 <= i < registry.Length ==>
      registry[i] == Some(WithCosines(old(registry[i]).value, cosDeg))
  {
    var i := 0;
    while i < registry.Length
      invariant 0 <= i <= registry.Length
      invariant forall j :: 0 <= j < i ==> registry[j] == Some(WithCosines(old(registry[j]).value, cosDeg))
      invariant forall j :: i <= j < registry.Length ==> registry[j] == old(registry[j])
    {
      var light := registry[i].value;
      registry[i] := Some(light.(spotConeInnerCos := cosDeg(light.spotConeInner),
                                 spotConeOuterCos := cosDeg(light.spotConeOuter)));
      i := i + 1;
    }
  }

  // ---------------------------------------------------------------------
  // Slot selection
  // ---------------------------------------------------------------------

  /** The light for slot `slot`: the registered light at that index when
      there is one and it is present, otherwise the default light. */
  function SelectLight(registry: seq<Option<Light>>, slot: nat): (light: Light)
    ensures slot < |registry| && registry[slot].Some? ==> light == registry[slot].value
    ensures slot >= |registry| || registry[slot].None? ==> light == DefaultLight
  {
    if slot < |registry| && registry[slot].Some? then registry[slot].value else DefaultLight
  }

  // ---------------------------------------------------------------------
  // Uniform names
  // ---------------------------------------------------------------------

  function DigitChar(d: nat): char
    requires d < 10
  {
    "0123456789"[d]
  }

  /** The decimal rendering of a number, as `%d` prints it. */
  function Decimal(n: nat): (s: string)
    ensures |s| >= 1
    ensures n < 10 ==> s == [DigitChar(n)]
    decreases n
  {
    if n < 10 then [DigitChar(n)] else Decimal(n / 10) + [DigitChar(n % 10)]
  }

  /** The text `uLights[<slot>].<field>` as formatted, before it is fitted
      into the buffer. */
  function FormattedName(slot: nat, field: string): string {
    "uLights[" + Decimal(slot) + "]." + field
  }

  /** What the bounded formatter leaves in a buffer of `size` bytes: at most
      `size - 1` characters, the rest cut off. */
  function FitBuffer(text: string, size: nat): (r: string)
    requires size >= 1
    ensures |r| <= size - 1
    ensures |text| <= size - 1 ==> r == text
    ensures r == text[..|r|]
  {
    if |text| <= size - 1 then text else text[..size - 1]
  }

  /** The uniform name of one field of one light slot. */
  function UniformName(slot: nat, field: string): string {
    FitBuffer(FormattedName(slot, field), NameBufferSize)
  }

  /** Every name the slot loop formats fits the 32-byte buffer: nothing is
      cut off, and the longest name leaves room to spare. */
  lemma NamesFitBuffer(slot: nat, k: nat)
    requires slot < SlotCount && k < FieldCount
    ensures |FormattedName(slot, FieldNames[k])| <= NameBufferSize - 5
    ensures UniformName(slot, FieldNames[k]) == FormattedName(slot, FieldNames[k])
  {
    assert |FieldNames[k]| <= 16;
  }

  /** The eleven field names are pairwise distinct. */
  lemma FieldNamesDistinct(i: nat, j: nat)
    requires i < FieldCount && j < FieldCount && i != j
    ensures FieldNames[i] != FieldNames[j]
  {
    var a, b := FieldNames[i], FieldNames[j];
    if |a| == |b| {
      if |a| == 9 {
        assert a[0] != b[0];
      } else {
        assert a[8] != b[8];
      }
    }
  }

  /** Within the slot loop, a uniform name determines its slot and its
      field: no two uploads of one pass share a name. */
  lemma SlotNamesDistinct(s1: nat, k1: nat, s2: nat, k2: nat)
    requires s1 < SlotCount && s2 < SlotCount && k1 < FieldCount && k2 < FieldCount
    requires UniformName(s1, FieldNames[k1]) == UniformName(s2, FieldNames[k2])
    ensures s1 == s2 && k1 == k2
  {
    assert |FieldNames[k1]| <= 16 && |FieldNames[k2]| <= 16;
    UniformNamesDistinct(s1, FieldNames[k1], s2, FieldNames[k2]);
    if k1 != k2 {
      FieldNamesDistinct(k1, k2);
    }
  }

  /** Names that fit are distinct: the slot digit and the field are both
      recoverable from the name. */
  lemma UniformNamesDistinct(s1: nat, f1: string, s2: nat, f2: string)
    requires s1 < 10 && s2 < 10
    requires |f1| <= 20 && |f2| <= 20
    requires UniformName(s1, f1) == UniformName(s2, f2)
    ensures s1 == s2 && f1 == f2
  {
    var n1, n2 := FormattedName(s1, f1), FormattedName(s2, f2);
    assert n1 == UniformName(s1, f1) && n2 == UniformName(s2, f2);
    assert n1[8] == DigitChar(s1) && n2[8] == DigitChar(s2);
    assert n1[11..] == f1 && n2[11..] == f2;
  }

  // ---------------------------------------------------------------------
  // Uniform values
  // ---------------------------------------------------------------------

  datatype UniformValue =
    | Vec4Value(v4: Vec4)
    | Vec3Value(v3: Vec3)
    | FloatValue(f: real)
    | Float3Value(a: real, b: real, c: real)

  datatype Upload = Upload(name: string, value: UniformValue)

  /** Entry `i` of a column-major matrix; a missing entry reads as zero. */
  function Entry(m: Mat4, i: nat): real {
    if i < |m.entries| then m.entries[i] else 0.0
  }

  /** Matrix times column vector. */
  function Transform(m: Mat4, v: Vec4): Vec4 {
    Vec4(Entry(m, 0) * v.x + Entry(m, 4) * v.y + Entry(m, 8) * v.z + Entry(m, 12) * v.w,
         Entry(m, 1) * v.x + Entry(m, 5) * v.y + Entry(m, 9) * v.z + Entry(m, 13) * v.w,
         Entry(m, 2) * v.x + Entry(m, 6) * v.y + Entry(m, 10) * v.z + Entry(m, 14) * v.w,
         Entry(m, 3) * v.x + Entry(m, 7) * v.y + Entry(m, 11) * v.z + Entry(m, 15) * v.w)
  }

  /** The value uploaded for field `k` of a light. The position is moved
      into eye space by the model-view matrix; every other field is sent as
      stored. The light's kind and half vector are never sent. The upload
      kind follows the field: four-vectors for the three colours and the
      position, a three-vector for the spot direction, scalars for the five
      cone fields, and three separate floats for the attenuation. */
  function FieldValue(light: Light, k: nat, modelView: Mat4): (r: UniformValue)
    requires k < FieldCount
    ensures r.Vec4Value? <==> k <= 3
    ensures r.Vec3Value? <==> k == 4
    ensures r.FloatValue? <==> 5 <= k <= 9
    ensures r.Float3Value? <==> k == 10
  {
    match k
    case 0 => Vec4Value(light.ambtColor)
    case 1 => Vec4Value(light.diffColor)
    case 2 => Vec4Value(light.specColor)
    case 3 => Vec4Value(Transform(modelView, light.position))
    case 4 => Vec3Value(light.spotDirection)
    case 5 => FloatValue(light.spotExponent)
    case 6 => FloatValue(light.spotConeInner)
    case 7 => FloatValue(light.spotConeInnerCos)
    case 8 => FloatValue(light.spotConeOuter)
    case 9 => FloatValue(light.spotConeOuterCos)
    case _ => Float3Value(light.attenuation.x, light.attenuation.y, light.attenuation.z)
  }

  /** Only the position depends on the model-view matrix. */
  lemma OnlyPositionUsesView(light: Light, k: nat, m1: Mat4, m2: Mat4)
    requires k < FieldCount && k != 3
    ensures FieldValue(light, k, m1) == FieldValue(light, k, m2)
  {
  }

  /** The eleven uploads of one slot, in field order. */
  function SlotUploads(light: Light, slot: nat, modelView: Mat4): (r: seq<Upload>)
    ensures |r| == FieldCount
    ensures forall k :: 0 <= k < FieldCount ==>
      r[k] == Upload(UniformName(slot, FieldNames[k]), FieldValue(light, k, modelView))
  {
    seq(FieldCount, k requires 0 <= k < FieldCount =>
      Upload(UniformName(slot, FieldNames[k]), FieldValue(light, k, modelView)))
  }

  /** The uploads of the first `n` slots, in slot order: eleven per slot. */
  function LightUniforms(registry: seq<Option<Light>>, n: nat, modelView: Mat4): (r: seq<Upload>)
    ensures |r| == FieldCount * n
    decreases n
  {
    if n == 0 then []
    else LightUniforms(registry, n - 1, modelView) + SlotUploads(SelectLight(registry, n - 1), n - 1, modelView)
  }

  /** Slot `s` occupies uploads `11 s` to `11 s + 10`, each the field of the
      slot's selected light under its own name. */
  lemma {:induction false} LightUniformsLayout(registry: seq<Option<Light>>, n: nat, modelView: Mat4)
    ensures |LightUniforms(registry, n, modelView)| == FieldCount * n
    ensures forall s, k :: 0 <= s < n && 0 <= k < FieldCount ==>
      LightUniforms(registry, n, modelView)[FieldCount * s + k] ==
        Upload(UniformName(s, FieldNames[k]), FieldValue(SelectLight(registry, s), k, modelView))
  {
    if n > 0 {
      LightUniformsLayout(registry, n - 1, modelView);
      var prev := LightUniforms(registry, n - 1, modelView);
      var last := SlotUploads(SelectLight(registry, n - 1), n - 1, modelView);
      assert LightUniforms(registry, n, modelView) == prev + last;
      forall s, k | 0 <= s < n && 0 <= k < FieldCount
        ensures (prev + last)[FieldCount * s + k] ==
          Upload(UniformName(s, FieldNames[k]), FieldValue(SelectLight(registry, s), k, modelView))
      {
        if s < n - 1 {
          assert FieldCount * s + k < FieldCount * (n - 1);
        } else {
          assert FieldCount * s + k - |prev| == k;
        }
      }
    }
  }

  /** A value with every component zero. */
  predicate IsZero(v: UniformValue) {
    match v
    case Vec4Value(u) => u == Zero4
    case Vec3Value(u) => u == Zero3
    case FloatValue(f) => f == 0.0
    case Float3Value(a, b, c) => a == 0.0 && b == 0.0 && c == 0.0
  }

  /** A slot with no registered light, or with an absent entry, uploads
      zero for every field, cone cosines included: they are never
      recomputed for the default light. */
  lemma DefaultSlotUploadsZero(registry: seq<Option<Light>>, slot: nat, modelView: Mat4, k: nat)
    requires slot >= |registry| || registry[slot].None?
    requires k < FieldCount
    ensures IsZero(FieldValue(SelectLight(registry, slot), k, modelView))
  {
    assert SelectLight(registry, slot) == DefaultLight;
    if k == 3 {
      assert Transform(modelView, Zero4) == Zero4;
    }
  }

  /** The uploads for all four slots of one shader: for each slot in turn,
      its selected light's eleven fields. */
  method UploadLights(registry: array<Option<Light>>, modelView: Mat4) returns (uploads: seq<Upload>)
    ensures uploads == LightUniforms(registry[..], SlotCount, modelView)
    ensures |uploads| == FieldCount * SlotCount
    ensures forall s, k :: 0 <= s < SlotCount && 0 <= k < FieldCount ==>
      uploads[FieldCount * s + k] ==
        Upload(UniformName(s, FieldNames[k]), FieldValue(SelectLight(registry[..], s), k, modelView))
  {
    uploads := [];
    var i := 0;
    while i < SlotCount
      invariant 0 <= i <= SlotCount
      invariant uploads == LightUniforms(registry[..], i, modelView)
    {
      var light := if i < registry.Length && registry[i].Some? then registry[i].value else DefaultLight;
      assert light == SelectLight(registry[..], i);
      uploads := uploads + SlotUploads(light, i, modelView);
      i := i + 1;
    }
    LightUniformsLayout(registry[..], SlotCount, modelView);
  }
}
