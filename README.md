# TDX-ECDSA evidence assembly

This project models the rats-tls TDX-ECDSA attester's evidence collector and proves properties about it. The collector fills one `attestation_evidence_t` in place, in four steps:

1. It binds the caller's SHA-256 hash into a zeroed TDX report-data block.
2. It asks the TDX attestation library for a report and then for a quote. The quote is copied into the front of `tdx.quote`, and `tdx.quote_len` becomes the quote's length. This happens only if the quote fits the incoming `quote_len`. The library's allocation is released on both paths.
3. It reads the ACPI TDEL event-log tables. The "info" table must read exactly `0x38` bytes, which go to offset 8192. The bytes of the "data" table (up to `0x10000`) go to offset `8192 + 0x38`.
4. It stamps the `type` tag `"tdx_ecdsa"`, but only after steps 2 and 3 have succeeded.

The project has three files:

- `bytes.dfy` (module `Bytes`): the byte type, an option type (`None` stands for a NULL pointer), and `Copy`. `Copy` is the value-level meaning of one `memcpy`.
- `tdx_layout.dfy` (module `TdxLayout`): the layout constants and the inputs that come from outside. It also holds the record as a value (`Record`) and one pure step function per C function. `Collect` composes the steps, and lemmas are stated about the result.
- `tdx_attester.dfy` (module `TdxAttester`): the running program.
  - `Evidence` is a class holding the `quote` byte array, `quoteLen` and `typeTag`. Its methods mirror `tdx_gen_quote`, `tdx_get_tdel_info`, `tdx_get_tdel_data` and `tdx_ecdsa_collect_evidence`. They update the array in place, under `modifies` clauses that name exactly the fields they may change.
  - Each method's postcondition ties the new record to the matching step function applied to the old record.
  - `Platform` stands for the TDX attestation library and the ACPI tables. Each call takes the platform's answer as an input. Ghost state records which report data was sent to `tdx_att_get_report` and to `tdx_att_get_quote`, which tables were opened, and how many quote allocations are live and how many were freed.

External inputs, which are parameters of the model:

- whether the hash pointer is NULL;
- whether `tdx_att_get_report` succeeded;
- what `tdx_att_get_quote` returned (failure, or the quote bytes);
- for each TDEL table: open failure, read failure, or the bytes read.

The size check at `collect_evidence.c:113` compares the driver's quote length with the caller's incoming `quote_len`. It does not compare it with the 8192 bytes in front of the info segment. If the caller's bound allows it, a quote longer than 8192 bytes is therefore accepted and copied whole. The info segment then replaces the quote's bytes in `[8192, 8192+0x38)`. The data segment replaces those in `[8192+0x38, 8192+0x38+n)`, where `n` is the number of data bytes read. Quote bytes past that point survive. `OversizedQuoteOverwritten` proves that such a record no longer starts with the quote whenever the first info byte differs from the quote's byte at 8192. `CollectLayout` accordingly promises the quote's bytes only outside the two segment regions.

## Model

| member | source | states |
|---|---|---|
| Bytes.Copy | src/attesters/tdx-ecdsa/collect_evidence.c:119 | after a `memcpy` of `src` to `off`, the bytes `[off, off+|src|)` equal `src`, every other byte is unchanged, and the length is kept |
| TdxLayout.ReportData | src/attesters/tdx-ecdsa/collect_evidence.c:93-96 | the report data is 64 bytes long; its first 32 bytes are the hash, and every later byte is zero |
| TdxLayout.GenQuoteStep | src/attesters/tdx-ecdsa/collect_evidence.c:86-130 | quote generation succeeds iff the hash is non-NULL, the report succeeded, the driver issued a quote, and that quote is no longer than the incoming `quote_len`. On failure the record is untouched. On success, bytes `[0,p)` are the quote, the rest of the buffer is unchanged, `quote_len` becomes `p` (at most the old bound), and the type tag is kept |
| TdxLayout.TdelInfoStep | src/attesters/tdx-ecdsa/collect_evidence.c:45-65 | the step succeeds iff the table read yields exactly `0x38` bytes; then `[8192, 8192+0x38)` holds them. No other byte, and neither `quote_len` nor `type`, changes; on failure nothing changes |
| TdxLayout.TdelDataStep | src/attesters/tdx-ecdsa/collect_evidence.c:67-84 | the step fails iff the table cannot be opened. On success, the `n` bytes read land at `[8192+0x38, 8192+0x38+n)` and no other byte changes; `quote_len` and `type` are kept |
| TdxLayout.Collect | src/attesters/tdx-ecdsa/collect_evidence.c:132-160 | collection succeeds iff quote generation, the info read and the data read all succeed. `type` becomes `"tdx_ecdsa"` exactly on success and is untouched on any failure. A failed quote step leaves the whole record untouched |
| TdxLayout.CollectLayout | src/attesters/tdx-ecdsa/collect_evidence.c:139-150 | after a successful collection, `quote_len` is the quote length, which is at most the old bound. The info and data segments sit at their fixed offsets. The driver's quote is intact outside the segment regions, and the old bytes are intact beyond the quote and outside the segments |
| TdxLayout.OversizedQuoteOverwritten | src/attesters/tdx-ecdsa/collect_evidence.c:113-119 | a quote longer than 8192 bytes that fits the caller's bound is accepted; when the first info byte differs from the quote's byte at offset 8192, the assembled buffer no longer starts with that quote |
| TdxLayout.QuoteOverwriteReachable | src/attesters/tdx-ecdsa/collect_evidence.c:113-121 | the condition above can be met: there is a well-formed record, with a full info table and an empty data table, for which collection succeeds and yet the buffer does not start with the driver's quote |
| TdxLayout.TypicalCollection | src/attesters/tdx-ecdsa/collect_evidence.c:132-160 | with a caller bound `quote_len` of at least 4000, a 4000-byte quote, a `0x38`-byte info table and a 100-byte data table, collection succeeds. `quote_len` is 4000 and `[0,4000)` is the quote. `[8192,8248)` is the info table and `[8248,8348)` is the data table. `type` is `"tdx_ecdsa"` |
| TdxAttester.Platform.GetReport | src/attesters/tdx-ecdsa/collect_evidence.c:34-43 | the report call records the report data it was sent and reports the driver's success or failure |
| TdxAttester.Platform.GetQuote | src/attesters/tdx-ecdsa/collect_evidence.c:104-111 | the quote request records the report data it was sent; an issued quote counts as one more live allocation |
| TdxAttester.Platform.FreeQuote | src/attesters/tdx-ecdsa/collect_evidence.c:115 | freeing a quote releases one live allocation and counts one free |
| TdxAttester.Platform.ReadTable | src/attesters/tdx-ecdsa/collect_evidence.c:51-56 | opening and reading a table records which table was opened and returns what the platform yields |
| TdxAttester.Evidence.CopyIn | src/attesters/tdx-ecdsa/collect_evidence.c:62 | the in-place `memcpy` leaves the array equal to `Copy` of its old contents |
| TdxAttester.Evidence.GenQuote | src/attesters/tdx-ecdsa/collect_evidence.c:86-130 | the updated record is `GenQuoteStep` of the old one, and `type` is not touched. With a NULL hash no report or quote is requested. The report data is `ReportData(hash)`, and it goes to the quote request only after a successful report. No allocation is leaked, and exactly one free happens iff a quote was issued |
| TdxAttester.Evidence.GetTdelInfo | src/attesters/tdx-ecdsa/collect_evidence.c:45-65 | the updated record is `TdelInfoStep` of the old one, and the info table is opened once |
| TdxAttester.Evidence.GetTdelData | src/attesters/tdx-ecdsa/collect_evidence.c:67-84 | the updated record is `TdelDataStep` of the old one, and the data table is opened once |
| TdxAttester.Evidence.CollectEvidence | src/attesters/tdx-ecdsa/collect_evidence.c:132-160 | the updated record is `Collect` of the old one. The tables are opened in order and only after the earlier steps succeeded: none if the quote step fails, then info, then data. No quote allocation is leaked and exactly one is freed iff one was issued; driver requests are as in `GenQuote` |

## Left out

- Driver internals (`tdx_att_get_report`, `tdx_att_get_quote`, `tdx_att_free_quote`) are foreign library calls. Their answers are inputs, and the TDX report they produce is not modelled. That report is never used later: the quote request is given the report data, not the report.
- File descriptors are left out, including the `fd = open(...) < 0` precedence slip at lines 51 and 74 and the descriptors that are never closed. The model's tables are inputs that yield an open failure, a read failure or bytes.
- TdxLayout.TdelDataStep, TdxAttester.Evidence.GetTdelData and the members that call them require the data-table read to be non-negative and at most `0x10000` bytes. The source passes a negative `read` result to `memcpy` unchecked, and no behaviour is invented for that case.
- Numeric return codes (`-1`, `0`, `-ENCLAVE_ATTESTER_ERR_INVALID`, `ENCLAVE_ATTESTER_ERR_NONE`) are modelled only as success or failure.
- The `#error` branch for builds without `VSOCK` is a build failure, not behaviour.
- Logging (`RTLS_ERR`, `RTLS_DEBUG`) is a side effect only.
- The `ctx` and `algo` parameters are used only in logging (and `ctx` is only passed on to the two table readers for that purpose), and `hash_len` is unused; none of the three is modelled. The hash is read for exactly 32 bytes whatever `hash_len` says, so the model requires a non-NULL hash to have at least 32 bytes.
- The sizes of `evidence->tdx.quote` and `evidence->type` are declared in headers that are not part of this model. The buffer is required to reach `8192 + 0x38 + 0x10000` bytes, which is the furthest the code writes, and the caller's `quote_len` is required not to exceed it. The `type` field is assumed large enough for `"tdx_ecdsa"`, whose `snprintf` truncation is not modelled.
- `quote_len` and the driver's `p_quote_size` are 32-bit unsigned values in the source. They are only compared and assigned, never added, so they appear here as unbounded naturals.
- `src/verifiers/sev-snp/crypto.h` only declares `verify_message`, an OpenSSL signature wrapper with no body, so there is nothing to model. The verifier chain walk and the plugin registry have no source among the files modelled.
- The constructors of `Evidence` and `Platform` model the caller's preparation of a zeroed record and of the platform, not code in the source.
