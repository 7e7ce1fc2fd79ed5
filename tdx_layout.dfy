/** The TDX-ECDSA evidence record as a value, and what each step of evidence
    assembly does to it. The inputs that come from the TDX attestation library
    and from the ACPI event-log tables are parameters. */
module TdxLayout {
  import opened Bytes

  const SHA256_HASH_SIZE: nat := 32
  /** Size of `tdx_report_data_t.d` (declared in `tdx_attest.h`). */
  const TDX_REPORT_DATA_SIZE: nat := 64
  const TDEL_INFO_SZ: nat := 0x38
  const TDEL_DATA_SZ: nat := 0x10000
  /** Where the event-log info segment is written in the quote buffer. */
  const INFO_OFFSET: nat := 8192
  /** Where the event-log data segment is written in the quote buffer. */
  const DATA_OFFSET: nat := INFO_OFFSET + TDEL_INFO_SZ
  /** The furthest byte the routine can write, hence the least capacity. */
  const MIN_CAPACITY: nat := DATA_OFFSET + TDEL_DATA_SZ
  const TDX_ECDSA_TYPE: string := "tdx_ecdsa"

  /** What `tdx_att_get_quote` answers: a failure, or a freshly allocated
      quote whose length is `p_quote_size`. */
  datatype QuoteReply = QuoteFailed | QuoteIssued(quote: seq<byte>)

  /** What opening and reading one ACPI TDEL table yields. */
  datatype TdelRead = OpenFailed | ReadFailed | ReadBytes(bytes: seq<byte>)

  /** The fields of `attestation_evidence_t` that the attester touches:
      `tdx.quote`, `tdx.quote_len` and `type`. */
  datatype Record = Record(quote: seq<byte>, quoteLen: nat, typeTag: string)

  /** The outcome of one step: whether it succeeded, and the record afterwards. */
  datatype Step = Step(ok: bool, rec: Record)

  /** A record the routine may be handed: the buffer reaches every offset it
      writes, and the caller's bound `quote_len` does not exceed the buffer. */
  predicate WellFormed(rec: Record) {
    |rec.quote| >= MIN_CAPACITY && rec.quoteLen <= |rec.quote|
  }

  /** A data-table read the routine can cope with: the count is never
      negative and never above the `TDEL_DATA_SZ` bytes asked for. */
  predicate DataReadAdmissible(read: TdelRead) {
    !read.ReadFailed? && (read.ReadBytes? ==> |read.bytes| <= TDEL_DATA_SZ)
  }

  /** True when the driver hands out a quote allocation, which must then be freed. */
  predicate QuoteGranted(hash: Option<seq<byte>>, reportOk: bool, reply: QuoteReply) {
    hash.Some? && reportOk && reply.QuoteIssued?
  }

  /** The report data sent to the driver: a zeroed block whose first
      `SHA256_HASH_SIZE` bytes are the caller's hash. */
  function ReportData(hash: seq<byte>): (d: seq<byte>)
    requires |hash| >= SHA256_HASH_SIZE
    ensures |d| == TDX_REPORT_DATA_SIZE
    ensures d[..SHA256_HASH_SIZE] == hash[..SHA256_HASH_SIZE]
    ensures forall i :: SHA256_HASH_SIZE <= i < TDX_REPORT_DATA_SIZE ==> d[i] == 0
  {
    Copy(Zeros(TDX_REPORT_DATA_SIZE), 0, hash[..SHA256_HASH_SIZE])
  }

  /** `tdx_gen_quote` on the record: fails, leaving the record alone, on a NULL
      hash, a failed report, a failed quote request or a quote longer than
      `quote_len`; otherwise the quote is copied to the front of the buffer
      and `quote_len` becomes its length. */
  function GenQuoteStep(hash: Option<seq<byte>>, reportOk: bool, reply: QuoteReply, rec: Record): (r: Step)
    requires WellFormed(rec)
    ensures WellFormed(r.rec) && |r.rec.quote| == |rec.quote| && r.rec.typeTag == rec.typeTag
    ensures r.ok <==> QuoteGranted(hash, reportOk, reply) && |reply.quote| <= rec.quoteLen
    ensures !r.ok ==> r.rec == rec
    ensures r.ok ==> r.rec.quoteLen == |reply.quote| <= rec.quoteLen
    ensures r.ok ==> r.rec.quote[..|reply.quote|] == reply.quote
    ensures r.ok ==> r.rec.quote[|reply.quote|..] == rec.quote[|reply.quote|..]
  {
    if hash.None? || !reportOk || reply.QuoteFailed? then Step(false, rec)
    else if |reply.quote| > rec.quoteLen then Step(false, rec)
    else
      var out := Copy(rec.quote, 0, reply.quote);
      assert out[|reply.quote|..] == rec.quote[|reply.quote|..];
      Step(true, Record(out, |reply.quote|, rec.typeTag))
  }

  /** `tdx_get_tdel_info` on the record: succeeds exactly when the read yields
      `TDEL_INFO_SZ` bytes, which then occupy `[INFO_OFFSET, DATA_OFFSET)`. */
  function TdelInfoStep(read: TdelRead, rec: Record): (r: Step)
    requires WellFormed(rec)
    ensures WellFormed(r.rec) && |r.rec.quote| == |rec.quote|
    ensures r.rec.quoteLen == rec.quoteLen && r.rec.typeTag == rec.typeTag
    ensures r.ok <==> read.ReadBytes? && |read.bytes| == TDEL_INFO_SZ
    ensures r.ok ==> r.rec.quote[INFO_OFFSET..DATA_OFFSET] == read.bytes
    ensures forall i :: 0 <= i < |rec.quote| && !(r.ok && INFO_OFFSET <= i < DATA_OFFSET) ==>
      r.rec.quote[i] == rec.quote[i]
  {
    if read.ReadBytes? && |read.bytes| == TDEL_INFO_SZ then
      Step(true, rec.(quote := Copy(rec.quote, INFO_OFFSET, read.bytes)))
    else
      Step(false, rec)
  }

  /** `tdx_get_tdel_data` on the record: fails only when the table cannot be
      opened; otherwise the bytes read land at `DATA_OFFSET` onwards. */
  function TdelDataStep(read: TdelRead, rec: Record): (r: Step)
    requires WellFormed(rec) && DataReadAdmissible(read)
    ensures WellFormed(r.rec) && |r.rec.quote| == |rec.quote|
    ensures r.rec.quoteLen == rec.quoteLen && r.rec.typeTag == rec.typeTag
    ensures r.ok <==> read.ReadBytes?
    ensures r.ok ==> r.rec.quote[DATA_OFFSET..DATA_OFFSET + |read.bytes|] == read.bytes
    ensures forall i :: 0 <= i < |rec.quote| && !(r.ok && DATA_OFFSET <= i < DATA_OFFSET + |read.bytes|) ==>
      r.rec.quote[i] == rec.quote[i]
  {
    if read.ReadBytes? then
      Step(true, rec.(quote := Copy(rec.quote, DATA_OFFSET, read.bytes)))
    else
      Step(false, rec)
  }

  /** `tdx_ecdsa_collect_evidence` on the record: quote, then info, then data,
      stopping at the first failure; the type tag is stamped only when all
      three succeed. */
  function Collect(hash: Option<seq<byte>>, reportOk: bool, reply: QuoteReply,
                   info: TdelRead, data: TdelRead, rec: Record): (r: Step)
    requires WellFormed(rec) && DataReadAdmissible(data)
    ensures WellFormed(r.rec) && |r.rec.quote| == |rec.quote|
    ensures r.ok <==> QuoteGranted(hash, reportOk, reply) && |reply.quote| <= rec.quoteLen
                      && info.ReadBytes? && |info.bytes| == TDEL_INFO_SZ && data.ReadBytes?
    ensures r.ok ==> r.rec.typeTag == TDX_ECDSA_TYPE
    ensures !r.ok ==> r.rec.typeTag == rec.typeTag
    ensures !GenQuoteStep(hash, reportOk, reply, rec).ok ==> r.rec == rec
  {
    var q := GenQuoteStep(hash, reportOk, reply, rec);
    if !q.ok then Step(false, q.rec)
    else
      var i := TdelInfoStep(info, q.rec);
      if !i.ok then Step(false, i.rec)
      else
        var d := TdelDataStep(data, i.rec);
        if !d.ok then Step(false, d.rec)
        else Step(true, d.rec.(typeTag := TDX_ECDSA_TYPE))
  }

  /** The layout of a successfully assembled record: info and data segments at
      their fixed offsets, the driver's quote wherever the segments did not
      overwrite it, the old contents everywhere else. */
  lemma CollectLayout(hash: Option<seq<byte>>, reportOk: bool, reply: QuoteReply,
                      info: TdelRead, data: TdelRead, rec: Record)
    requires WellFormed(rec) && DataReadAdmissible(data)
    requires Collect(hash, reportOk, reply, info, data, rec).ok
    ensures var out := Collect(hash, reportOk, reply, info, data, rec).rec;
      var p := |reply.quote|;
      var n := |data.bytes|;
      && out.quoteLen == p <= rec.quoteLen
      && out.quote[INFO_OFFSET..DATA_OFFSET] == info.bytes
      && out.quote[DATA_OFFSET..DATA_OFFSET + n] == data.bytes
      && (forall i :: 0 <= i < p && !(INFO_OFFSET <= i < DATA_OFFSET + n) ==> out.quote[i] == reply.quote[i])
      && (forall i :: p <= i < |rec.quote| && !(INFO_OFFSET <= i < DATA_OFFSET + n) ==> out.quote[i] == rec.quote[i])
  {
  }

  /** The size check compares against the caller's `quote_len`, not against
      the 8192 bytes before the info segment: a quote that runs past
      `INFO_OFFSET` is accepted, and its bytes in `[INFO_OFFSET, DATA_OFFSET)`
      are replaced by the info segment; when the first info byte differs from
      the quote's, the record no longer starts with the quote. */
  lemma OversizedQuoteOverwritten(hash: Option<seq<byte>>, reply: QuoteReply,
                                  info: TdelRead, data: TdelRead, rec: Record)
    requires WellFormed(rec) && DataReadAdmissible(data) && data.ReadBytes?
    requires hash.Some? && reply.QuoteIssued? && INFO_OFFSET < |reply.quote| <= rec.quoteLen
    requires info.ReadBytes? && |info.bytes| == TDEL_INFO_SZ && info.bytes[0] != reply.quote[INFO_OFFSET]
    ensures Collect(hash, true, reply, info, data, rec).ok
    ensures Collect(hash, true, reply, info, data, rec).rec.quote[..|reply.quote|] != reply.quote
  {
  }

  /** Some well-formed record and driver answers lead to a successful
      collection whose buffer does not start with the driver's quote. */
  lemma QuoteOverwriteReachable()
    ensures exists reply: QuoteReply, info: TdelRead, rec: Record ::
      && WellFormed(rec) && reply.QuoteIssued?
      && var r := Collect(Some(Zeros(SHA256_HASH_SIZE)), true, reply, info, ReadBytes([]), rec);
         r.ok && r.rec.quote[..|reply.quote|] != reply.quote
  {
    var rec := Record(Zeros(MIN_CAPACITY), MIN_CAPACITY, "");
    var reply := QuoteIssued(seq(9000, _ => 1));
    var info := ReadBytes(Zeros(TDEL_INFO_SZ));
    OversizedQuoteOverwritten(Some(Zeros(SHA256_HASH_SIZE)), reply, info, ReadBytes([]), rec);
  }

  /** A 4000-byte quote, a full info table and a 100-byte data table give a
      tagged record with `quote_len` 4000 and both segments in place. */
  lemma TypicalCollection(hash: seq<byte>, reply: QuoteReply, info: TdelRead, data: TdelRead, rec: Record)
    requires WellFormed(rec) && rec.quoteLen >= 4000
    requires |hash| == SHA256_HASH_SIZE
    requires reply.QuoteIssued? && |reply.quote| == 4000
    requires info.ReadBytes? && |info.bytes| == 0x38
    requires data.ReadBytes? && |data.bytes| == 100
    ensures var r := Collect(Some(hash), true, reply, info, data, rec);
      && r.ok && r.rec.quoteLen == 4000 && r.rec.typeTag == TDX_ECDSA_TYPE
      && r.rec.quote[..4000] == reply.quote
      && r.rec.quote[8192..8248] == info.bytes
      && r.rec.quote[8248..8348] == data.bytes
  {
  }
}
