/** Memory types and their names (`nixl_capi_mem_type_to_string`). */
module MemTypes {
  import opened CapiTypes

  /** The memory types, in the order of their codes. */
  datatype MemType = Dram | Vram | Block | Object | File | Unknown

  /** The binding's name table, indexed by memory-type code. */
  const MemTypeNames: seq<string> := ["DRAM", "VRAM", "BLOCK", "OBJECT", "FILE", "UNKNOWN"]

  /** The code of each memory type: its position in the enumeration. */
  function Code(t: MemType): (c: MemCode)
  {
    match t
    case Dram => 0
    case Vram => 1
    case Block => 2
    case Object => 3
    case File => 4
    case Unknown => 5
  }

  /** The name each memory type should print as, stated per type. */
  function Name(t: MemType): string
  {
    match t
    case Dram => "DRAM"
    case Vram => "VRAM"
    case Block => "BLOCK"
    case Object => "OBJECT"
    case File => "FILE"
    case Unknown => "UNKNOWN"
  }

  /** The memory type a code stands for, if any. */
  function FromCode(c: MemCode): (t: Option<MemType>)
    ensures t.Some? <==> 0 <= c < 6
    ensures t.Some? ==> Code(t.value) == c
  {
    if c == 0 then Some(Dram)
    else if c == 1 then Some(Vram)
    else if c == 2 then Some(Block)
    else if c == 3 then Some(Object)
    else if c == 4 then Some(File)
    else if c == 5 then Some(Unknown)
    else None
  }

  /** The memory type a name stands for, if any. */
  function FromName(s: string): Option<MemType>
  {
    if s == "DRAM" then Some(Dram)
    else if s == "VRAM" then Some(Vram)
    else if s == "BLOCK" then Some(Block)
    else if s == "OBJECT" then Some(Object)
    else if s == "FILE" then Some(File)
    else if s == "UNKNOWN" then Some(Unknown)
    else None
  }

  /** `nixl_capi_mem_type_to_string`: a null out-pointer, or a code outside
      the table, is an invalid parameter and writes nothing; otherwise the
      table's entry for the code is written. */
  function MemTypeToString(memType: MemCode, str: OutPtr): (r: Out<string>)
    ensures str.Null? || memType < 0 || memType >= |MemTypeNames| ==> r == Out(ErrInvalidParam, None)
    ensures r.status == Success <==> str.Ptr? && FromCode(memType).Some?
    ensures r.status == Success ==> r.written == Some(Name(FromCode(memType).value))
    ensures r.status != Success ==> r.status == ErrInvalidParam && r.written == None
  {
    if str.Null? then Rejected()
    else if memType < 0 || memType >= |MemTypeNames| then Rejected()
    else Out(Success, Some(MemTypeNames[memType]))
  }

  /** The table and the per-type names agree, and the names are a faithful
      encoding: every name written for a code reads back as the type of that
      code, and distinct codes print differently. */
  lemma NamesRoundTrip(c: MemCode, c': MemCode)
    requires 0 <= c < 6 && 0 <= c' < 6
    ensures MemTypeToString(c, Ptr(Opaque)).written == Some(Name(FromCode(c).value))
    ensures FromName(MemTypeToString(c, Ptr(Opaque)).written.value) == FromCode(c)
    ensures c != c' ==> MemTypeToString(c, Ptr(Opaque)).written != MemTypeToString(c', Ptr(Opaque)).written
  {
  }

  /** Every memory type has a name in the table, at its own code. */
  lemma EveryTypeNamed(t: MemType)
    ensures MemTypeToString(Code(t), Ptr(Opaque)) == Out(Success, Some(Name(t)))
    ensures FromName(Name(t)) == Some(t)
  {
  }
}
