/**
 * The client core block as MS-RDPBCGR 2.2.1.3.2 lays it out, and which of its fields the gateway takes for
 * the protocol that was selected.
 */
module RdpCore {
  import opened ByteStrings
  import opened Wire
  import opened RdpConnect

  /** The standard's fields in their order, up to the selected protocol. */
  datatype Core = Core(
    version: u32, width: u16, height: u16, depth: u16, sas: u16, layout: u32, build: u32, name: bytes,
    keyboard: u32, subtype: u32, keys: u32, ime: bytes, postBeta2Depth: u16, product: u16, serial: u32,
    highDepth: u16, supportedDepths: u16, flags: u16, digProduct: bytes, connection: byte, selected: u32)

  ghost predicate Shaped(c: Core) {
    |c.name| == 32 && |c.ime| == 64 && |c.digProduct| == 64
  }

  /** The fields every client sends. */
  function Required(c: Core): bytes {
    Le32(c.version) + Le16(c.width) + Le16(c.height) + Le16(c.depth) + Le16(c.sas) + Le32(c.layout) + Le32(c.build)
    + c.name + Le32(c.keyboard) + Le32(c.subtype) + Le32(c.keys) + c.ime
  }

  /** The optional ones between them and the protocol, each there only if the ones before it are. */
  function Optional(c: Core): bytes {
    Le16(c.postBeta2Depth) + Le16(c.product) + Le32(c.serial) + Le16(c.highDepth) + Le16(c.supportedDepths)
    + Le16(c.flags) + c.digProduct + [c.connection, 0]
  }

  function CoreBody(c: Core): bytes {
    Required(c) + Optional(c) + Le32(c.selected)
  }

  /** Where a client that sends it has the protocol it saw selected. */
  function SelectedIn(body: bytes): Option<u32> {
    if |body| < 212 then None else Some(ReadLe32(body[208..212]))
  }

  lemma RequiredSize(c: Core)
    requires Shaped(c)
    ensures |Required(c)| == 128 && |Optional(c)| == 80
  {
  }

  lemma {:induction false} ReadsLow(a: u16, b: u16)
    ensures ReadLe32(Le16(a) + Le16(b)) == a as int + 0x1_0000 * b as int
  {
    var s := Le16(a) + Le16(b);
    Le16RoundTrips(a);
    Le16RoundTrips(b);
    assert s[..2] == Le16(a) && s[2..] == Le16(b);
  }

  /** The standard's reader finds the protocol; the gateway finds the two optional fields at the front instead. */
  lemma FieldsTaken(c: Core, before: Blocks)
    requires Shaped(c)
    ensures SelectedIn(CoreBody(c)) == Some(c.selected)
    ensures OneBlock(CS_CORE, CoreBody(c), before) ==
            Some(before.(requested := c.postBeta2Depth as int + 0x1_0000 * c.product as int))
  {
    hide Required, Optional, ReadLe32, ReadLe16, Le32;
    RequiredSize(c);
    FixedWidthRoundTrips(0, c.selected);
    var body := CoreBody(c);
    assert body[208..212] == Le32(c.selected);
    assert body[128..132] == Optional(c)[..4] == Le16(c.postBeta2Depth) + Le16(c.product) by { OptionalBegins(c); }
    ReadsLow(c.postBeta2Depth, c.product);
  }

  lemma OptionalBegins(c: Core)
    requires Shaped(c)
    ensures |Optional(c)| >= 4 && Optional(c)[..4] == Le16(c.postBeta2Depth) + Le16(c.product)
  {
  }

  /**
   * What is taken is the selected protocol exactly when a color depth and a product number happen to be
   * its two halves.
   */
  lemma TakesTheProtocolIff(c: Core, before: Blocks)
    requires Shaped(c)
    ensures OneBlock(CS_CORE, CoreBody(c), before) == Some(before.(requested := c.selected)) <==>
            c.postBeta2Depth == c.selected % 0x1_0000 && c.product == c.selected / 0x1_0000
  {
    hide CoreBody, OneBlock;
    FieldsTaken(c, before);
  }

  /** Of any block at all: without the field nothing should be taken, but from 132 bytes on something is. */
  lemma TakenFromShortBlocks(body: bytes, before: Blocks)
    ensures SelectedIn(body).None? && OneBlock(CS_CORE, body, before) != Some(before) ==> 132 <= |body| < 212
    ensures 132 <= |body| ==> OneBlock(CS_CORE, body, before) == Some(before.(requested := ReadLe32(body[128..132])))
    ensures |body| < 132 ==> OneBlock(CS_CORE, body, before) == Some(before)
  {
  }

  /** A usual client: 256 colors, product 1, and TLS selected; 0x1CA01 is taken for 1. */
  lemma UsualClientMisread(c: Core, before: Blocks)
    requires Shaped(c) && c.postBeta2Depth == 0xCA01 && c.product == 1 && c.selected == 1
    ensures OneBlock(CS_CORE, CoreBody(c), before) == Some(before.(requested := 0x1CA01))
  {
    hide CoreBody, OneBlock;
    FieldsTaken(c, before);
  }
}
