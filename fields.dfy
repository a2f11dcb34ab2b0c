/** The bitmask selecting which of an event's fields (title, body) are evaluated. */
module Fields {

  /** Go's `uint` on a 64-bit platform. */
  type FieldFlag = bv64

  const FieldTitle: FieldFlag := 1
  const FieldBody: FieldFlag := 2
  const AllFieldFlags: FieldFlag := FieldTitle | FieldBody

  /** The flag set contains some bit of `flag`. */
  predicate Has(f: FieldFlag, flag: FieldFlag)
    ensures Has(f, flag) ==> f != 0 && flag != 0
    ensures flag != 0 && f & flag == flag ==> Has(f, flag)
  {
    f & flag != 0
  }

  /** The title bit, the body bit, both, or none: the only values ParseFieldFlags yields. */
  lemma AllFieldFlagsIsBoth()
    ensures AllFieldFlags == 3
    ensures Has(AllFieldFlags, FieldTitle) && Has(AllFieldFlags, FieldBody)
    ensures !Has(FieldTitle, FieldBody) && !Has(FieldBody, FieldTitle)
    ensures forall g: FieldFlag :: !Has(0, g)
  {
  }

  /** An empty selection means every field. */
  function OrDefault(f: FieldFlag): (r: FieldFlag)
    ensures r != 0
    ensures f != 0 ==> r == f
    ensures f == 0 ==> r == AllFieldFlags
  {
    if f == 0 then AllFieldFlags else f
  }

  /** Applying the default twice changes nothing. */
  lemma OrDefaultIdempotent(f: FieldFlag)
    ensures OrDefault(OrDefault(f)) == OrDefault(f)
  {
  }

  /** The flags a set of field names stands for; names other than "title" and "body" add nothing. */
  function FlagsFor(names: set<string>): FieldFlag
  {
    (if "title" in names then FieldTitle else 0) | (if "body" in names then FieldBody else 0)
  }

  /**
   * Accumulates `flags |= ...` over the names: the result depends only on which names occur,
   * not on their order or repetition.
   */
  method ParseFieldFlags(fields: seq<string>) returns (flags: FieldFlag)
    ensures flags == FlagsFor(set f | f in fields)
    ensures Has(flags, FieldTitle) <==> "title" in fields
    ensures Has(flags, FieldBody) <==> "body" in fields
    ensures flags & !AllFieldFlags == 0
    ensures fields == [] ==> flags == 0
  {
    flags := 0;
    var i := 0;
    while i < |fields|
      invariant 0 <= i <= |fields|
      invariant flags == FlagsFor(set f | f in fields[..i])
    {
      assert forall f :: f in fields[..i + 1] <==> f in fields[..i] || f == fields[i];
      if fields[i] == "title" {
        flags := flags | FieldTitle;
      } else if fields[i] == "body" {
        flags := flags | FieldBody;
      }
      i := i + 1;
    }
    assert fields[..i] == fields;
  }
}
