/** The `Vertex` struct and the vertex-input descriptions derived from its
    `#[repr(C)]` layout. */
module VertexLayout {
  import opened VkTypes

  const F32_SIZE: nat := 4

  /** A `[f32; n]` field of a `#[repr(C)]` struct. */
  datatype Field = Field(name: string, components: nat)

  /** `Vertex { pos: [f32; 2], color: [f32; 3] }`. */
  const VERTEX_FIELDS: seq<Field> := [Field("pos", 2), Field("color", 3)]

  function FieldSize(f: Field): nat {
    f.components * F32_SIZE
  }

  /** `offset_of!` under `#[repr(C)]`: fields lie in declaration order, each
      at the end of the previous one (every field is 4-aligned, so there is
      no padding): the first field is at offset 0 and every offset keeps
      the 4-byte alignment of `f32`. */
  function OffsetOf(fields: seq<Field>, i: nat): (o: nat)
    requires i <= |fields|
    ensures i == 0 ==> o == 0
    ensures o % F32_SIZE == 0
  {
    if i == 0 then 0 else OffsetOf(fields, i - 1) + FieldSize(fields[i - 1])
  }

  /** A field ends at or before the offset of every later field, so no
      two fields overlap. */
  lemma {:induction false} FieldPrecedes(fields: seq<Field>, j: nat, i: nat)
    requires j < i <= |fields|
    ensures OffsetOf(fields, j) + FieldSize(fields[j]) <= OffsetOf(fields, i)
  {
    if j < i - 1 {
      FieldPrecedes(fields, j, i - 1);
    }
  }

  /** `size_of::<Vertex>()`: every field lies within the struct. */
  function SizeOf(fields: seq<Field>): (size: nat)
    ensures forall j :: 0 <= j < |fields| ==> OffsetOf(fields, j) + FieldSize(fields[j]) <= size
  {
    assert forall j :: 0 <= j < |fields| ==> OffsetOf(fields, j) + FieldSize(fields[j]) <= OffsetOf(fields, |fields|) by {
      forall j | 0 <= j < |fields|
        ensures OffsetOf(fields, j) + FieldSize(fields[j]) <= OffsetOf(fields, |fields|)
      {
        FieldPrecedes(fields, j, |fields|);
      }
    }
    OffsetOf(fields, |fields|)
  }

  /** `VkVertexInputRate`. */
  datatype VertexInputRate = PerVertex | PerInstance

  datatype BindingDescription = BindingDescription(binding: nat, stride: nat, inputRate: VertexInputRate)

  datatype AttributeDescription =
    AttributeDescription(location: nat, binding: nat, format: Format, offset: nat)

  /** `Vertex::get_binding_description`: binding 0, one whole vertex per
      step. */
  function GetBindingDescription(): (b: BindingDescription)
    ensures b.binding == 0 && b.inputRate == PerVertex
    ensures b.stride == 20
  {
    BindingDescription(0, SizeOf(VERTEX_FIELDS), PerVertex)
  }

  /** `Vertex::get_attribute_descriptions`: `pos` at location 0 and offset 0
      as two floats, `color` at location 1 and offset 8 as three floats. */
  function GetAttributeDescriptions(): (a: seq<AttributeDescription>)
    ensures a == [AttributeDescription(0, 0, FORMAT_R32G32_SFLOAT, 0),
                  AttributeDescription(1, 0, FORMAT_R32G32B32_SFLOAT, 8)]
  {
    [AttributeDescription(0, 0, FORMAT_R32G32_SFLOAT, OffsetOf(VERTEX_FIELDS, 0)),
     AttributeDescription(1, 0, FORMAT_R32G32B32_SFLOAT, OffsetOf(VERTEX_FIELDS, 1))]
  }

  /** Bytes read by one attribute of the given format. */
  function FormatSize(f: Format): nat {
    if f == FORMAT_R32G32_SFLOAT then 2 * F32_SIZE
    else if f == FORMAT_R32G32B32_SFLOAT then 3 * F32_SIZE
    else 0
  }

  /** Each attribute reads exactly its field's bytes, the two do not
      overlap, and both lie within one vertex stride. */
  lemma AttributesMatchFields()
    ensures forall i :: 0 <= i < |GetAttributeDescriptions()| ==>
              var a := GetAttributeDescriptions()[i];
              i < |VERTEX_FIELDS|
              && a.location == i
              && a.binding == GetBindingDescription().binding
              && a.offset == OffsetOf(VERTEX_FIELDS, i)
              && FormatSize(a.format) == FieldSize(VERTEX_FIELDS[i])
              && a.offset + FormatSize(a.format) <= GetBindingDescription().stride
    ensures GetAttributeDescriptions()[0].offset + FormatSize(GetAttributeDescriptions()[0].format)
              <= GetAttributeDescriptions()[1].offset
  {
  }
}
