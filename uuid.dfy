/** Allure2Listener::generateUuidV4 once its two random 64-bit words are
    drawn: the version and variant bits are forced, and the words are written
    as five unpadded lower-case hexadecimal groups joined by '-'. */
module UuidV4 {
  import opened TextFormat

  /** Applied to the first word: clear bits 12..15, then set the version 4 nibble. */
  const VersionKeep: bv64 := 0xFFFF_FFFF_FFFF_0FFF
  const VersionBits: bv64 := 0x0000_0000_0000_4000
  /** Applied to the second word: clear bits 62..63, then set them to 0b10. */
  const VariantKeep: bv64 := 0x3FFF_FFFF_FFFF_FFFF
  const VariantBits: bv64 := 0x8000_0000_0000_0000

  function ShapeHigh(a: bv64): (x: bv64)
  {
    (a & VersionKeep) | VersionBits
  }

  function ShapeLow(b: bv64): (y: bv64)
  {
    (b & VariantKeep) | VariantBits
  }

  /** The five numbers the stream writes, in order. */
  datatype Groups = Groups(first: bv64, second: bv64, third: bv64, fourth: bv64, fifth: bv64)

  function GroupsOf(a: bv64, b: bv64): (g: Groups)
  {
    var x := ShapeHigh(a);
    var y := ShapeLow(b);
    Groups((x >> 32) & 0xFFFF_FFFF, (x >> 16) & 0xFFFF, x & 0xFFFF,
           (y >> 48) & 0xFFFF, y & 0xFFFF_FFFF_FFFF)
  }

  function Hex(g: bv64): (digits: string)
  {
    ToBase(g as nat, 16)
  }

  function Render(g: Groups): (text: string)
  {
    Hex(g.first) + "-" + Hex(g.second) + "-" + Hex(g.third) + "-" + Hex(g.fourth) + "-" + Hex(g.fifth)
  }

  /** The identifier generated from the two drawn words a and b: five
      unpadded lower-case hexadecimal numerals separated by '-', whose third
      reads as a version-4 group and whose fourth as a variant-10 group. */
  function GenerateUuidV4(a: bv64, b: bv64): (uuid: string)
    ensures var parts := Split(uuid, '-');
      && |parts| == 5
      && (forall i :: 0 <= i < 5 ==> IsNumeral(parts[i], 16))
      && 0x4000 <= FromBase(parts[2], 16) <= 0x4FFF
      && 0x8000 <= FromBase(parts[3], 16) <= 0xBFFF
  {
    var g := GroupsOf(a, b);
    RenderGroupsRoundTrip(g);
    VersionGroup(a, b);
    VariantGroup(a, b);
    Render(g)
  }

  /** The third group is 0x4000 | (a & 0xFFF): it always lies in 0x4000..0x4FFF. */
  lemma VersionGroup(a: bv64, b: bv64)
    ensures GroupsOf(a, b).third == 0x4000 | (a & 0xFFF)
    ensures 0x4000 <= GroupsOf(a, b).third <= 0x4FFF
  {
  }

  /** The fourth group has its top two bits 0b10: it lies in 0x8000..0xBFFF,
      and its other 14 bits are those of the top of b. */
  lemma VariantGroup(a: bv64, b: bv64)
    ensures 0x8000 <= GroupsOf(a, b).fourth <= 0xBFFF
    ensures GroupsOf(a, b).fourth & 0x3FFF == (b >> 48) & 0x3FFF
  {
  }

  /** Shaping touches only the version nibble and the two variant bits. */
  lemma OtherBitsKept(a: bv64, b: bv64)
    ensures ShapeHigh(a) & VersionKeep == a & VersionKeep
    ensures ShapeHigh(a) & 0xF000 == 0x4000
    ensures ShapeLow(b) & VariantKeep == b & VariantKeep
    ensures ShapeLow(b) >> 62 == 2
  {
  }

  /** The groups cover both shaped words exactly: nothing is dropped or repeated. */
  lemma GroupsReassemble(a: bv64, b: bv64)
    ensures var g := GroupsOf(a, b);
      (g.first << 32) | (g.second << 16) | g.third == ShapeHigh(a)
    ensures var g := GroupsOf(a, b);
      (g.fourth << 48) | g.fifth == ShapeLow(b)
  {
  }

  lemma SplitFive(h1: string, h2: string, h3: string, h4: string, h5: string)
    requires '-' !in h1 && '-' !in h2 && '-' !in h3 && '-' !in h4 && '-' !in h5
    ensures Split(h1 + "-" + h2 + "-" + h3 + "-" + h4 + "-" + h5, '-') == [h1, h2, h3, h4, h5]
  {
    assert h1 + "-" + h2 + "-" + h3 + "-" + h4 + "-" + h5
        == h1 + ['-'] + (h2 + ['-'] + (h3 + ['-'] + (h4 + ['-'] + h5)));
    SplitJoin(h1, '-', h2 + ['-'] + (h3 + ['-'] + (h4 + ['-'] + h5)));
    SplitJoin(h2, '-', h3 + ['-'] + (h4 + ['-'] + h5));
    SplitJoin(h3, '-', h4 + ['-'] + h5);
    SplitJoin(h4, '-', h5);
    SplitField(h5, '-');
  }

  /** Rendered groups read back: five unpadded lower-case hexadecimal
      numerals separated by '-', with the groups' values. */
  lemma {:induction false} RenderGroupsRoundTrip(g: Groups)
    ensures var parts := Split(Render(g), '-');
      && |parts| == 5
      && (forall i :: 0 <= i < 5 ==> IsNumeral(parts[i], 16))
      && FromBase(parts[0], 16) == g.first as nat
      && FromBase(parts[1], 16) == g.second as nat
      && FromBase(parts[2], 16) == g.third as nat
      && FromBase(parts[3], 16) == g.fourth as nat
      && FromBase(parts[4], 16) == g.fifth as nat
  {
    var h1, h2, h3, h4, h5 := Hex(g.first), Hex(g.second), Hex(g.third), Hex(g.fourth), Hex(g.fifth);
    NumeralHasNo(h1, 16, '-');
    NumeralHasNo(h2, 16, '-');
    NumeralHasNo(h3, 16, '-');
    NumeralHasNo(h4, 16, '-');
    NumeralHasNo(h5, 16, '-');
    SplitFive(h1, h2, h3, h4, h5);
    ToBaseRoundTrip(g.first as nat, 16);
    ToBaseRoundTrip(g.second as nat, 16);
    ToBaseRoundTrip(g.third as nat, 16);
    ToBaseRoundTrip(g.fourth as nat, 16);
    ToBaseRoundTrip(g.fifth as nat, 16);
  }

  /** The identifier starts with a hexadecimal digit, so it is never an
      absolute path. */
  lemma StartsWithHexDigit(a: bv64, b: bv64)
    ensures var u := GenerateUuidV4(a, b); |u| > 0 && IsDigit(u[0], 16) && u[0] != '/'
  {
    var g := GroupsOf(a, b);
    var h := Hex(g.first);
    assert GenerateUuidV4(a, b)[0] == h[0];
  }

  /** The identifier is five unpadded lower-case hexadecimal numerals
      separated by '-', and reading them back gives the five groups. */
  lemma RenderRoundTrip(a: bv64, b: bv64)
    ensures var g := GroupsOf(a, b);
      var parts := Split(GenerateUuidV4(a, b), '-');
      && |parts| == 5
      && (forall i :: 0 <= i < 5 ==> IsNumeral(parts[i], 16))
      && FromBase(parts[0], 16) == g.first as nat
      && FromBase(parts[1], 16) == g.second as nat
      && FromBase(parts[2], 16) == g.third as nat
      && FromBase(parts[3], 16) == g.fourth as nat
      && FromBase(parts[4], 16) == g.fifth as nat
  {
    RenderGroupsRoundTrip(GroupsOf(a, b));
  }
}
