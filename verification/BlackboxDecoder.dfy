/** The host's decoder for a downloaded log. None stands for each of the errors it raises. */
module BlackboxDecoder {
  import opened Counters
  import opened Bytes
  import opened BlackboxFormat
  import opened BlackboxSamples

  datatype Footer = Footer(ended: uint64, captured: uint32, dropped: uint32, finalState: uint32)

  datatype DecodedLog = DecodedLog(
    version: nat, logId: uint32, interval: uint32, startedAt: uint64, firmware: Buffer, build: Buffer,
    configuration: Buffer, footer: Option<Footer>, samples: seq<Decoded>)

  function Split(data: Buffer): (sectors: seq<Sector>)
    requires |data| % SECTOR_SIZE == 0
    ensures |sectors| == |data| / SECTOR_SIZE
  {
    seq(|data| / SECTOR_SIZE, i requires 0 <= i < |data| / SECTOR_SIZE => data[512 * i..512 * i + 512])
  }

  function Concat(sectors: seq<Sector>): (data: Buffer)
    ensures |data| == SECTOR_SIZE * |sectors|
    decreases |sectors|
  {
    if sectors == [] then [] else Concat(sectors[..|sectors| - 1]) + sectors[|sectors| - 1]
  }

  lemma {:induction false} SplitConcat(sectors: seq<Sector>)
    ensures Split(Concat(sectors)) == sectors
    decreases |sectors|
  {
    if sectors != [] {
      var init := sectors[..|sectors| - 1];
      SplitConcat(init);
      forall i | 0 <= i < |sectors|
        ensures Split(Concat(sectors))[i] == sectors[i]
      {
        if i < |init| {
          assert Split(Concat(init))[i] == init[i];
        }
      }
    }
  }

  function ParseAll(sectors: seq<Sector>): (blocks: Option<seq<Block>>)
    ensures blocks.Some? ==> |blocks.value| == |sectors|
    ensures blocks.Some? ==> forall i | 0 <= i < |sectors| :: ParseBlock(sectors[i]) == Some(blocks.value[i])
    ensures blocks.None? ==> exists i :: 0 <= i < |sectors| && ParseBlock(sectors[i]).None?
    decreases |sectors|
  {
    if sectors == [] then Some([])
    else
      var init := ParseAll(sectors[..|sectors| - 1]);
      var last := ParseBlock(sectors[|sectors| - 1]);
      if init.None? then
        var i :| 0 <= i < |sectors| - 1 && ParseBlock(sectors[..|sectors| - 1][i]).None?;
        assert ParseBlock(sectors[i]).None?;
        None
      else if last.None? then None
      else Some(init.value + [last.value])
  }

  predicate SameVersion(blocks: seq<Block>) {
    forall i | 0 <= i < |blocks| :: blocks[i].version == blocks[0].version
  }

  predicate SameLog(blocks: seq<Block>) {
    forall i | 0 <= i < |blocks| :: blocks[i].logId == blocks[0].logId
  }

  function FirstOfKind(blocks: seq<Block>, kind: nat): (b: Option<Block>)
    decreases |blocks|
  {
    if blocks == [] then None else if blocks[0].kind == kind then Some(blocks[0]) else FirstOfKind(blocks[1..], kind)
  }

  function LastOfKind(blocks: seq<Block>, kind: nat): (b: Option<Block>)
    decreases |blocks|
  {
    if blocks == [] then None
    else
      var last := blocks[|blocks| - 1];
      if last.kind == kind then Some(last) else LastOfKind(blocks[..|blocks| - 1], kind)
  }

  function ConfigurationIn(blocks: seq<Block>): (b: Buffer)
    decreases |blocks|
  {
    if blocks == [] then []
    else
      var last := blocks[|blocks| - 1];
      ConfigurationIn(blocks[..|blocks| - 1]) + if last.kind == CONFIGURATION then last.payload else []
  }

  /** A slice that ends early when the data does. */
  function Clip(b: Buffer, from: nat, to: nat): (r: Buffer)
    requires from <= to
  {
    if to <= |b| then b[from..to] else if from <= |b| then b[from..] else []
  }

  function PayloadSamples(payload: Buffer, count: nat, version: nat): (d: Option<seq<Decoded>>)
    requires version == 1 || version == 2
    ensures d.Some? ==> |d.value| == count
  {
    if count == 0 then Some([])
    else
      var init := PayloadSamples(payload, count - 1, version);
      var last := DecodeSample(Clip(payload, (count - 1) * SampleSize(version), count * SampleSize(version)), version);
      if init.None? || last.None? then None else Some(init.value + [last.value])
  }

  function LogSamples(blocks: seq<Block>, version: nat): (d: Option<seq<Decoded>>)
    requires version == 1 || version == 2
    decreases |blocks|
  {
    if blocks == [] then Some([])
    else
      var init := LogSamples(blocks[..|blocks| - 1], version);
      var last := blocks[|blocks| - 1];
      if last.kind != SAMPLES then init
      else
        var added := PayloadSamples(last.payload, last.items, version);
        if init.None? || added.None? then None else Some(init.value + added.value)
  }

  /** The bytes before the first zero. */
  function UntilZero(b: Buffer): (r: Buffer)
    ensures r <= b && 0 !in r
    decreases |b|
  {
    if b == [] || b[0] == 0 then [] else [b[0]] + UntilZero(b[1..])
  }

  function DecodeFooter(blocks: seq<Block>): (f: Option<Option<Footer>>) {
    match LastOfKind(blocks, FLIGHT_FOOTER)
    case None => Some(None)
    case Some(b) =>
      if |b.payload| < 20 then None
      else Some(Some(Footer(GetU64(b.payload, 0), GetU32(b.payload, 8), GetU32(b.payload, 12), GetU32(b.payload, 16))))
  }

  function DecodeBlocks(blocks: seq<Block>): (log: Option<DecodedLog>)
    requires blocks != [] && (blocks[0].version == 1 || blocks[0].version == 2)
  {
    var version := blocks[0].version;
    var header := FirstOfKind(blocks, FLIGHT_HEADER);
    if !SameVersion(blocks) || !SameLog(blocks) || header.None? || |header.value.payload| < 68 then None
    else
      var h := header.value.payload;
      var bytes := ConfigurationIn(blocks);
      var configuration := Clip(bytes, 0, GetU32(h, 4));
      if Crc32(configuration) != GetU32(h, 8) then None
      else
        var samples := LogSamples(blocks, version);
        var footer := DecodeFooter(blocks);
        if samples.None? || footer.None? then None
        else
          Some(DecodedLog(version, blocks[0].logId, GetU32(h, 0), GetU64(h, 12), UntilZero(h[20..36]),
                          UntilZero(h[36..68]), configuration, footer.value, samples.value))
  }

  function DecodeLog(data: Buffer): (log: Option<DecodedLog>) {
    if data == [] || |data| % SECTOR_SIZE != 0 then None
    else
      var blocks := ParseAll(Split(data));
      if blocks.None? then None
      else
        assert ParseBlock(Split(data)[0]) == Some(blocks.value[0]);
        DecodeBlocks(blocks.value)
  }

  /* ---------------- one more block ---------------- */

  lemma OneMoreBlock(blocks: seq<Block>, b: Block)
    ensures ConfigurationIn(blocks + [b]) ==
            ConfigurationIn(blocks) + if b.kind == CONFIGURATION then b.payload else []
    ensures LastOfKind(blocks + [b], FLIGHT_FOOTER) ==
            if b.kind == FLIGHT_FOOTER then Some(b) else LastOfKind(blocks, FLIGHT_FOOTER)
    ensures b.kind != SAMPLES ==> LogSamples(blocks + [b], 2) == LogSamples(blocks, 2)
    ensures b.kind == SAMPLES && LogSamples(blocks, 2).Some? && PayloadSamples(b.payload, b.items, 2).Some? ==>
              LogSamples(blocks + [b], 2) ==
              Some(LogSamples(blocks, 2).value + PayloadSamples(b.payload, b.items, 2).value)
    ensures blocks != [] && blocks[0].kind == FLIGHT_HEADER ==>
              FirstOfKind(blocks + [b], FLIGHT_HEADER) == Some(blocks[0])
  {
    hide PayloadSamples;
    assert (blocks + [b])[..|blocks|] == blocks;
  }

  lemma {:induction false} ParsedSectors(sectors: seq<Sector>, blocks: seq<Block>)
    requires |blocks| == |sectors|
    requires forall i | 0 <= i < |sectors| :: ParseBlock(sectors[i]) == Some(blocks[i])
    ensures ParseAll(sectors) == Some(blocks)
  {
    var parsed := ParseAll(sectors);
    assert parsed.Some?;
    assert parsed.value == blocks;
  }

  /* ---------------- the decoder as the host runs it ---------------- */

  method ReadPayload(block: Block, version: nat) returns (samples: Option<seq<Decoded>>)
    requires version == 1 || version == 2
    ensures samples == PayloadSamples(block.payload, block.items, version)
  {
    hide DecodeSample;
    var read: seq<Decoded> := [];
    for index := 0 to block.items
      invariant PayloadSamples(block.payload, index, version) == Some(read)
    {
      var sample := ReadSample(Clip(block.payload, index * SampleSize(version), (index + 1) * SampleSize(version)),
          version);
      if sample.None? {
        PayloadStaysBad(block.payload, index + 1, block.items, version);
        return None;
      }
      read := read + [sample.value];
    }
    return Some(read);
  }

  lemma {:induction false} PayloadStaysBad(payload: Buffer, bad: nat, count: nat, version: nat)
    requires version == 1 || version == 2
    requires bad <= count && PayloadSamples(payload, bad, version).None?
    ensures PayloadSamples(payload, count, version).None?
    decreases count
  {
    hide DecodeSample, Clip, SampleSize;
    if bad < count {
      PayloadStaysBad(payload, bad, count - 1, version);
    }
  }

  lemma {:induction false} SamplesStayBad(blocks: seq<Block>, bad: nat, version: nat)
    requires version == 1 || version == 2
    requires bad <= |blocks| && LogSamples(blocks[..bad], version).None?
    ensures LogSamples(blocks, version).None?
    decreases |blocks|
  {
    if bad < |blocks| {
      var init := blocks[..|blocks| - 1];
      assert init[..bad] == blocks[..bad];
      SamplesStayBad(init, bad, version);
    } else {
      assert blocks[..bad] == blocks;
    }
  }

  method ReadSamples(blocks: seq<Block>, version: nat) returns (samples: Option<seq<Decoded>>)
    requires version == 1 || version == 2
    ensures samples == LogSamples(blocks, version)
  {
    hide PayloadSamples;
    var read: seq<Decoded> := [];
    for index := 0 to |blocks|
      invariant LogSamples(blocks[..index], version) == Some(read)
    {
      assert blocks[..index + 1][..index] == blocks[..index];
      if blocks[index].kind == SAMPLES {
        var added := ReadPayload(blocks[index], version);
        if added.None? {
          SamplesStayBad(blocks, index + 1, version);
          return None;
        }
        read := read + added.value;
      }
    }
    assert blocks[..|blocks|] == blocks;
    return Some(read);
  }

  method ReadBlocks(data: Buffer) returns (blocks: Option<seq<Block>>)
    requires |data| % SECTOR_SIZE == 0
    ensures blocks == ParseAll(Split(data))
  {
    hide ParseBlock;
    var read: seq<Block> := [];
    var sectors := Split(data);
    for index := 0 to |sectors|
      invariant |read| == index
      invariant forall i | 0 <= i < index :: ParseBlock(sectors[i]) == Some(read[i])
    {
      var block := ParseBlock(data[512 * index..512 * index + 512]);
      if block.None? {
        assert ParseBlock(sectors[index]).None?;
        return None;
      }
      read := read + [block.value];
    }
    ParsedSectors(sectors, read);
    return Some(read);
  }

  /** The whole decoder. */
  method Decode(data: Buffer) returns (log: Option<DecodedLog>)
    ensures log == DecodeLog(data)
  {
    hide ParseBlock, LogSamples, Crc32, GetU32, GetU64, FirstOfKind, ConfigurationIn, DecodeFooter, Split, UntilZero;
    if data == [] || |data| % SECTOR_SIZE != 0 {
      return None;
    }
    var parsed := ReadBlocks(data);
    if parsed.None? {
      return None;
    }
    var blocks := parsed.value;
    assert ParseBlock(Split(data)[0]) == Some(blocks[0]);
    VersionIsKnown(Split(data)[0]);
    var version := blocks[0].version;
    var header := FirstOfKind(blocks, FLIGHT_HEADER);
    if !SameVersion(blocks) || !SameLog(blocks) || header.None? || |header.value.payload| < 68 {
      return None;
    }
    var h := header.value.payload;
    var configuration := Clip(ConfigurationIn(blocks), 0, GetU32(h, 4));
    if Crc32(configuration) != GetU32(h, 8) {
      return None;
    }
    var samples := ReadSamples(blocks, version);
    var footer := DecodeFooter(blocks);
    if samples.None? || footer.None? {
      return None;
    }
    return Some(DecodedLog(version, blocks[0].logId, GetU32(h, 0), GetU64(h, 12), UntilZero(h[20..36]),
                           UntilZero(h[36..68]), configuration, footer.value, samples.value));
  }

  lemma VersionIsKnown(s: Sector)
    ensures ParseBlock(s).Some? ==> ParseBlock(s).value.version == 1 || ParseBlock(s).value.version == 2
  {
  }
}
