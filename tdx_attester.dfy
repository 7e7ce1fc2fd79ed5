/** The TDX-ECDSA attester as it runs: an evidence record updated in place,
    and the platform it asks for a report, a quote and the ACPI event-log
    tables. */
module TdxAttester {
  import opened Bytes
  import opened TdxLayout

  /** The two ACPI tables the attester opens. */
  datatype Table = TdelInfoTable | TdelDataTable

  /** The TDX attestation library and the ACPI tables, seen from the attester.
      Their answers are inputs to each call; what the attester asks of them,
      and how many quote allocations it holds and has released, is recorded in
      ghost state. */
  class Platform {
    /** Report data passed to `tdx_att_get_report`, in order. */
    ghost var reportRequests: seq<seq<byte>>
    /** Report data passed to `tdx_att_get_quote`, in order. */
    ghost var quoteRequests: seq<seq<byte>>
    /** Quote allocations handed out and not yet freed. */
    ghost var liveQuotes: nat
    /** Calls to `tdx_att_free_quote`. */
    ghost var freedQuotes: nat
    /** Tables opened, in order. */
    ghost var tablesOpened: seq<Table>

    constructor ()
      ensures reportRequests == [] && quoteRequests == [] && tablesOpened == []
      ensures liveQuotes == 0 && freedQuotes == 0
    {
      reportRequests, quoteRequests, tablesOpened := [], [], [];
      liveQuotes, freedQuotes := 0, 0;
    }

    /** `tdx_get_report`: asks the driver for a report over `reportData`;
        `answer` is whether the driver said `TDX_ATTEST_SUCCESS`. */
    method GetReport(reportData: seq<byte>, answer: bool) returns (ok: bool)
      modifies this`reportRequests
      ensures ok == answer
      ensures reportRequests == old(reportRequests) + [reportData]
    {
      reportRequests := reportRequests + [reportData];
      ok := answer;
    }

    /** `tdx_att_get_quote`: a successful answer is a new allocation. */
    method GetQuote(reportData: seq<byte>, answer: QuoteReply) returns (reply: QuoteReply)
      modifies this`quoteRequests, this`liveQuotes
      ensures reply == answer
      ensures quoteRequests == old(quoteRequests) + [reportData]
      ensures liveQuotes == old(liveQuotes) + (if answer.QuoteIssued? then 1 else 0)
    {
      quoteRequests := quoteRequests + [reportData];
      if answer.QuoteIssued? {
        liveQuotes := liveQuotes + 1;
      }
      reply := answer;
    }

    /** `tdx_att_free_quote`: releases one allocation the caller holds. */
    method FreeQuote()
      requires liveQuotes > 0
      modifies this`liveQuotes, this`freedQuotes
      ensures liveQuotes == old(liveQuotes) - 1 && freedQuotes == old(freedQuotes) + 1
    {
      liveQuotes := liveQuotes - 1;
      freedQuotes := freedQuotes + 1;
    }

    /** `open` and `read` of one ACPI table; `answer` is what they yield. */
    method ReadTable(table: Table, answer: TdelRead) returns (result: TdelRead)
      modifies this`tablesOpened
      ensures result == answer
      ensures tablesOpened == old(tablesOpened) + [table]
    {
      tablesOpened := tablesOpened + [table];
      result := answer;
    }
  }

  /** The attester's view of `attestation_evidence_t`: the `tdx.quote` byte
      buffer, its valid length `tdx.quote_len`, and the `type` tag. */
  class Evidence {
    var quote: array<byte>
    var quoteLen: nat
    var typeTag: string

    ghost predicate Valid()
      reads this
    {
      quote.Length >= MIN_CAPACITY && quoteLen <= quote.Length
    }

    /** The record as a value. */
    ghost function Value(): Record
      reads this, quote
    {
      Record(quote[..], quoteLen, typeTag)
    }

    /** A zero-filled record of `capacity` bytes whose `quote_len` bound is
        `bound`, as a caller prepares it. */
    constructor (capacity: nat, bound: nat)
      requires MIN_CAPACITY <= capacity && bound <= capacity
      ensures Valid() && fresh(quote)
      ensures quote[..] == Zeros(capacity) && quoteLen == bound && typeTag == ""
    {
      quote := new byte[capacity](_ => 0);
      quoteLen := bound;
      typeTag := "";
    }

    /** `memcpy(&quote[off], src, |src|)`. */
    method CopyIn(off: nat, src: seq<byte>)
      requires off + |src| <= quote.Length
      modifies quote
      ensures quote[..] == Copy(old(quote[..]), off, src)
    {
      forall i | 0 <= i < |src| {
        quote[off + i] := src[i];
      }
      assert quote[..] == Copy(old(quote[..]), off, src) by {
        forall k | 0 <= k < quote.Length
          ensures quote[..][k] == Copy(old(quote[..]), off, src)[k]
        {
          if off <= k < off + |src| {
            var c := Copy(old(quote[..]), off, src);
            assert c[k] == c[off..off + |src|][k - off];
          }
        }
      }
    }

    /** `tdx_gen_quote(hash, quote, &quote_len)`. */
    method GenQuote(hash: Option<seq<byte>>, reportOk: bool, answer: QuoteReply, platform: Platform)
      returns (ok: bool)
      requires Valid()
      requires hash.Some? ==> |hash.value| >= SHA256_HASH_SIZE
      modifies quote, this`quoteLen
      modifies platform`reportRequests, platform`quoteRequests, platform`liveQuotes, platform`freedQuotes
      ensures Valid() && quote == old(quote) && typeTag == old(typeTag)
      ensures var r := GenQuoteStep(hash, reportOk, answer, old(Value())); ok == r.ok && Value() == r.rec
      ensures platform.reportRequests ==
        old(platform.reportRequests) + (if hash.Some? then [ReportData(hash.value)] else [])
      ensures platform.quoteRequests ==
        old(platform.quoteRequests) + (if hash.Some? && reportOk then [ReportData(hash.value)] else [])
      ensures platform.liveQuotes == old(platform.liveQuotes)
      ensures platform.freedQuotes ==
        old(platform.freedQuotes) + (if QuoteGranted(hash, reportOk, answer) then 1 else 0)
    {
      if hash.None? {
        return false;
      }
      var reportData := ReportData(hash.value);
      var reported := platform.GetReport(reportData, reportOk);
      if !reported {
        return false;
      }
      var reply := platform.GetQuote(reportData, answer);
      if reply.QuoteFailed? {
        return false;
      }
      if |reply.quote| > quoteLen {
        platform.FreeQuote();
        return false;
      }
      CopyIn(0, reply.quote);
      quoteLen := |reply.quote|;
      platform.FreeQuote();
      ok := true;
    }

    /** `tdx_get_tdel_info(ctx, evidence)`. */
    method GetTdelInfo(answer: TdelRead, platform: Platform) returns (ok: bool)
      requires Valid()
      modifies quote, platform`tablesOpened
      ensures Valid() && quote == old(quote)
      ensures var r := TdelInfoStep(answer, old(Value())); ok == r.ok && Value() == r.rec
      ensures platform.tablesOpened == old(platform.tablesOpened) + [TdelInfoTable]
    {
      var read := platform.ReadTable(TdelInfoTable, answer);
      if !(read.ReadBytes? && |read.bytes| == TDEL_INFO_SZ) {
        return false;
      }
      CopyIn(INFO_OFFSET, read.bytes);
      ok := true;
    }

    /** `tdx_get_tdel_data(ctx, evidence)`. */
    method GetTdelData(answer: TdelRead, platform: Platform) returns (ok: bool)
      requires Valid() && DataReadAdmissible(answer)
      modifies quote, platform`tablesOpened
      ensures Valid() && quote == old(quote)
      ensures var r := TdelDataStep(answer, old(Value())); ok == r.ok && Value() == r.rec
      ensures platform.tablesOpened == old(platform.tablesOpened) + [TdelDataTable]
    {
      var read := platform.ReadTable(TdelDataTable, answer);
      if read.OpenFailed? {
        return false;
      }
      CopyIn(DATA_OFFSET, read.bytes);
      ok := true;
    }

    /** `tdx_ecdsa_collect_evidence(ctx, evidence, algo, hash, hash_len)`. */
    method CollectEvidence(hash: Option<seq<byte>>, reportOk: bool, answer: QuoteReply,
                           info: TdelRead, data: TdelRead, platform: Platform)
      returns (ok: bool)
      requires Valid() && DataReadAdmissible(data)
      requires hash.Some? ==> |hash.value| >= SHA256_HASH_SIZE
      modifies quote, this`quoteLen, this`typeTag
      modifies platform`reportRequests, platform`quoteRequests, platform`liveQuotes, platform`freedQuotes,
               platform`tablesOpened
      ensures Valid() && quote == old(quote)
      ensures var r := Collect(hash, reportOk, answer, info, data, old(Value())); ok == r.ok && Value() == r.rec
      ensures platform.reportRequests ==
        old(platform.reportRequests) + (if hash.Some? then [ReportData(hash.value)] else [])
      ensures platform.quoteRequests ==
        old(platform.quoteRequests) + (if hash.Some? && reportOk then [ReportData(hash.value)] else [])
      ensures platform.liveQuotes == old(platform.liveQuotes)
      ensures platform.freedQuotes ==
        old(platform.freedQuotes) + (if QuoteGranted(hash, reportOk, answer) then 1 else 0)
      ensures platform.tablesOpened == old(platform.tablesOpened) +
        (if !GenQuoteStep(hash, reportOk, answer, old(Value())).ok then []
         else if !TdelInfoStep(info, GenQuoteStep(hash, reportOk, answer, old(Value())).rec).ok then [TdelInfoTable]
         else [TdelInfoTable, TdelDataTable])
    {
      ok := GenQuote(hash, reportOk, answer, platform);
      if !ok {
        return false;
      }
      ok := GetTdelInfo(info, platform);
      if !ok {
        return false;
      }
      ok := GetTdelData(data, platform);
      if !ok {
        return false;
      }
      typeTag := TDX_ECDSA_TYPE;
    }
  }
}
