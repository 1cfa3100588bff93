/**
 * The byte count of the config account (src/index.ts): a fixed header, a u32
 * line count, the lines, and a trailing u32 plus one byte.
 */
module Layout {

  /**
   * The header: authority (32), uuid with its u32 length (4 + 6), symbol with
   * its u32 length (4 + 10), seller fee basis points (2), the creators'
   * option flag and u32 length (1 + 4) and room for five creators of 34 bytes
   * each, max supply (8), is-mutable (1), retain-authority (1) and the maximum
   * number of lines (4).
   */
  const ConfigArrayStart: nat := 32 + 4 + 6 + 4 + 10 + 2 + 1 + 4 + MaxCreators * CreatorBytes + 8 + 1 + 1 + 4

  /** One config line: a u32 length and 32 bytes of name, a u32 length and 200 bytes of uri. */
  const ConfigLineSize: nat := 4 + 32 + 4 + 200

  /** Bytes the header reserves for each field that has a maximum length. */
  const UuidBytes: nat := 6
  const SymbolBytes: nat := 10
  const MaxCreators: nat := 5
  const CreatorBytes: nat := 34

  /** The number of lines the scripts size the account for, whatever the catalog holds. */
  const AllocatedLines: nat := 5

  /** The source's space expression with its line count as a parameter. */
  function ConfigSpace(lines: nat): (space: nat)
    ensures space >= ConfigArrayStart + lines * ConfigLineSize
  {
    ConfigArrayStart + 4 + lines * ConfigLineSize + 4 + 1
  }

  /** The space both `createAccount` and the rent query receive. */
  const AllocatedSpace: nat := ConfigSpace(AllocatedLines)

  lemma LayoutConstants()
    ensures ConfigArrayStart == 247
    ensures ConfigLineSize == 240
    ensures AllocatedSpace == 1456
  {
  }

  /** Each further line costs exactly one line's size. */
  lemma {:induction false} SpaceGrowsByLine(lines: nat, more: nat)
    ensures ConfigSpace(lines + more) == ConfigSpace(lines) + more * ConfigLineSize
  {
    if more > 0 {
      SpaceGrowsByLine(lines, more - 1);
      assert ConfigSpace(lines + more) == ConfigSpace(lines + (more - 1)) + ConfigLineSize;
    }
  }

  /** The fixed allocation holds the space a catalog of `lines` lines needs exactly when there are at most five. */
  lemma AllocationCovers(lines: nat)
    ensures AllocatedSpace >= ConfigSpace(lines) <==> lines <= AllocatedLines
  {
    if lines <= AllocatedLines {
      SpaceGrowsByLine(lines, AllocatedLines - lines);
    } else {
      SpaceGrowsByLine(AllocatedLines, lines - AllocatedLines);
    }
  }
}
