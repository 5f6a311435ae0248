/**
 * VkGuide/Types/Vertex.cs: the vertex struct's memory layout and the input
 * description the pipeline reads it with. The struct is laid out
 * sequentially: every field is a vector of 4-byte floats, so each field
 * starts where the previous one ends and the struct's size is the sum of
 * its fields' sizes.
 */
module VertexLayout {
  import opened VkTypes

  /** One field of a sequentially laid out struct: its name and its size in bytes. */
  datatype StructField = StructField(name: string, size: nat)

  /** Position, Normal and Color are Vector3 (three floats), Uv is Vector2 (two floats). */
  const VERTEX_FIELDS: seq<StructField> :=
    [StructField("Position", 12), StructField("Normal", 12), StructField("Color", 12), StructField("Uv", 8)]

  /** Byte offset of field k: the sizes of the fields declared before it. */
  function OffsetOf(fields: seq<StructField>, k: nat): nat
    requires k <= |fields|
  {
    if k == 0 then 0 else OffsetOf(fields, k - 1) + fields[k - 1].size
  }

  /** Size of the whole struct. */
  function SizeOf(fields: seq<StructField>): nat
  {
    OffsetOf(fields, |fields|)
  }

  /** Bytes read by a vertex attribute format. */
  function FormatSize(format: Format): nat
  {
    if format == FORMAT_R32G32B32_SFLOAT then 12
    else if format == FORMAT_R32G32_SFLOAT then 8
    else 0
  }

  datatype VertexInputRate = PerVertex | PerInstance

  datatype VertexInputBindingDescription = VertexInputBindingDescription(
    binding: uint32, stride: uint32, inputRate: VertexInputRate)

  datatype VertexInputAttributeDescription = VertexInputAttributeDescription(
    location: uint32, binding: uint32, format: Format, offset: uint32)

  datatype VertexInputDescription = VertexInputDescription(
    bindings: seq<VertexInputBindingDescription>,
    attributes: seq<VertexInputAttributeDescription>,
    flags: uint32)

  /** The attribute for field k of the vertex: location k, on binding 0, at the field's offset. */
  function Attribute(k: nat, format: Format): VertexInputAttributeDescription
    requires k < |VERTEX_FIELDS|
  {
    VertexOffsets();
    VertexInputAttributeDescription(k, 0, format, OffsetOf(VERTEX_FIELDS, k))
  }

  /**
   * One binding, 0, whose stride is the vertex's size and which advances per
   * vertex; four attributes on it for Position, Normal, Color and Uv at
   * locations 0 to 3, each at its field's offset.
   */
  function GetVertexDescription(): (d: VertexInputDescription)
    ensures |d.bindings| == 1 && d.bindings[0] == VertexInputBindingDescription(0, SizeOf(VERTEX_FIELDS), PerVertex)
    ensures d.bindings[0].stride == 44
    ensures |d.attributes| == |VERTEX_FIELDS| == 4
    ensures forall k :: 0 <= k < 4 ==>
              d.attributes[k].location == k && d.attributes[k].binding == 0 &&
              d.attributes[k].offset == OffsetOf(VERTEX_FIELDS, k) &&
              FormatSize(d.attributes[k].format) == VERTEX_FIELDS[k].size
    ensures [d.attributes[0].offset, d.attributes[1].offset, d.attributes[2].offset, d.attributes[3].offset] == [0, 12, 24, 36]
    ensures d.attributes[0].format == d.attributes[1].format == d.attributes[2].format == FORMAT_R32G32B32_SFLOAT
    ensures d.attributes[3].format == FORMAT_R32G32_SFLOAT
    ensures d.flags == 0
  {
    VertexOffsets();
    var mainBinding := VertexInputBindingDescription(0, SizeOf(VERTEX_FIELDS), PerVertex);
    var position := Attribute(0, FORMAT_R32G32B32_SFLOAT);
    var normal := Attribute(1, FORMAT_R32G32B32_SFLOAT);
    var color := Attribute(2, FORMAT_R32G32B32_SFLOAT);
    var uv := Attribute(3, FORMAT_R32G32_SFLOAT);
    VertexInputDescription([mainBinding], [position, normal, color, uv], 0)
  }

  /** Position at 0, Normal at 12, Color at 24, Uv at 36; 44 bytes in all. */
  lemma VertexOffsets()
    ensures OffsetOf(VERTEX_FIELDS, 0) == 0 && OffsetOf(VERTEX_FIELDS, 1) == 12
    ensures OffsetOf(VERTEX_FIELDS, 2) == 24 && OffsetOf(VERTEX_FIELDS, 3) == 36
    ensures SizeOf(VERTEX_FIELDS) == 44
  {
    assert OffsetOf(VERTEX_FIELDS, 1) == 12;
    assert OffsetOf(VERTEX_FIELDS, 2) == 24;
    assert OffsetOf(VERTEX_FIELDS, 3) == 36;
  }

  /** Offsets never decrease along the declaration order, and grow past every field of positive size. */
  lemma {:induction false} OffsetsGrow(fields: seq<StructField>, i: nat, j: nat)
    requires i <= j <= |fields|
    ensures OffsetOf(fields, i) + (if i < j then fields[i].size else 0) <= OffsetOf(fields, j)
    decreases j - i
  {
    if i < j {
      if i + 1 < j {
        OffsetsGrow(fields, i + 1, j);
      }
    }
  }

  /** Every field ends within the struct. */
  lemma FieldWithinStruct(fields: seq<StructField>, k: nat)
    requires k < |fields|
    ensures OffsetOf(fields, k) + fields[k].size <= SizeOf(fields)
  {
    OffsetsGrow(fields, k, |fields|);
  }

  /**
   * The description reads the vertex consistently: attribute offsets
   * strictly increase with the location, each attribute's bytes lie within
   * the stride, and no two attributes overlap.
   */
  lemma DescriptionFitsVertex()
    ensures var d := GetVertexDescription();
            (forall i, j :: 0 <= i < j < |d.attributes| ==> d.attributes[i].offset < d.attributes[j].offset) &&
            (forall k :: 0 <= k < |d.attributes| ==>
               d.attributes[k].offset + FormatSize(d.attributes[k].format) <= d.bindings[0].stride) &&
            (forall i, j :: 0 <= i < j < |d.attributes| ==>
               d.attributes[i].offset + FormatSize(d.attributes[i].format) <= d.attributes[j].offset)
  {
    var d := GetVertexDescription();
    forall i, j | 0 <= i < j < |d.attributes|
      ensures d.attributes[i].offset + FormatSize(d.attributes[i].format) <= d.attributes[j].offset
    {
      OffsetsGrow(VERTEX_FIELDS, i, j);
    }
    forall k | 0 <= k < |d.attributes|
      ensures d.attributes[k].offset + FormatSize(d.attributes[k].format) <= d.bindings[0].stride
    {
      FieldWithinStruct(VERTEX_FIELDS, k);
    }
  }
}
