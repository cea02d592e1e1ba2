# Evidence anchoring core, modelled in Dafny

This project models the part of the evidence-collection system that turns a
piece of evidence into an on-chain anchor.

- **The evidence storage tool** (`EvidenceStorageTool.execute`) hashes an
  evidence record's canonical JSON with SHA-256. It then builds the calldata
  `SPOON_EVIDENCE_V1|` followed by the 32 digest bytes, resolves the RPC
  endpoint and the signing key from the environment and the secret vault, and
  sends a zero-value transaction from the account to itself. After sending, it
  waits for the receipt, signs an attestation of the hash and reports a
  success or a classified error.
- **The message monitor tool** (the `execute` of `WeChatWebMonitorTool` that
  takes effect) scans chat messages for keywords, ignoring case, and reports
  the messages that matched.
- **The user upload tool** (`UserEvidenceUploadTool.execute`) does the
  following:
  - rejects blank content and unknown evidence types;
  - appends a file's text when the file can be read;
  - builds the evidence record with its metadata merged key by key and its
    `file_info`;
  - hands the record to the storage tool and wraps its answer.
- **The web endpoint** `POST /api/upload-evidence` (`upload_evidence`, with
  `init_upload_agent`) does the following:
  - turns the uploaded file into text: UTF-8, or base64 under the type
    `binary`;
  - calls the upload tool;
  - flattens the tool's JSON reply into the body the front end reads.

## Modules

- `Wrappers`: `Option`.
- `Text`: Python's `strip`, `rstrip`, ASCII `lower`, slicing, and substring `in`.
- `Bytes`: hex (`hex()` and `bytes.fromhex`), UTF-8 encode and strict decode,
  and base64 encode and decode, with their round trips.
- `Json`: JSON values, dicts as ordered field lists with Python's
  assignment and `update` semantics, and `sort_keys` normalisation.
- `Anchor`: the storage tool. The process environment, the vault, the web3
  libraries and node (`Chain`), the account's signing operations, SHA-256 and
  the clock are inputs. Each call into the outside world is an `Effect` in a
  trace, so the contracts can say which calls were made, in what order, with
  which arguments.
- `Monitor`: the keyword monitor.
- `Upload`: the upload tool. The file system (`FileProbe`) and the clock
  reading are inputs.
- `Http`: the endpoint, and a `Server` class holding whether the upload
  tool has been created.

## Model

| member | source | states |
|---|---|---|
| Anchor.Execute | examples/auto_evidence_agent.py:337-517 | `Anchor.Executed` holds of the outcome and the trace. A missing RPC URL is reported exactly when none of `WEB3_RPC_URL`, `RPC_URL`, `NEOX_RPC_URL` is set. A missing key is reported exactly when the URL is set and neither the vault nor `PRIVATE_KEY` gives one. Both cases call nothing. Otherwise the node at the first configured URL is used with the vault key in preference to the environment key, and `Anchor.Submitted` holds for the digest of the canonical record. |
| Anchor.Submit | examples/auto_evidence_agent.py:403-517 | `Anchor.Submitted` holds. The calls open with the imports, `is_connected(url)`, `from_key(key)`, then the nonce of the account's address, the chain id, the gas price and the gas estimate for the calldata, in that order. Every recorded exception is the one the libraries or the node raise for that call. `rpc_unreachable` is reported exactly when the imports succeed and `is_connected` answers false, after two calls. The run succeeds exactly when the imports, the connection, the key, the three reads, signing the anchoring transaction, sending it and signing the attestation all succeed. Only the gas estimate and the receipt wait may raise without ending the run; any other exception ends it and is classified. After the gas estimate the calls follow the source's order, and a run makes at most 11: the zero-value self-transfer with the node's chain id, nonce and gas price, carrying `data_hex`, with gas twice the estimate or 80000, is signed; then exactly those signed bytes are sent; then the hash the node answered is waited for; then the attestation of `evidence_hash` and the attestation time is signed. A success makes 11 calls and reports the evidence hash, `data_hex`, the transaction hash, the receipt status, the attestation signature, the record, the explorer link and the reported time. |
| Anchor.Prepare | examples/auto_evidence_agent.py:403-452 | The seven opening calls are made in order, each with the exception the libraries or the node give for it, and nothing is signed. The transaction gets ready exactly when the imports, the connection, the key and the nonce, chain id and gas price reads succeed; it is then the anchoring transaction built from exactly those answers, to the account's own address, value 0, gas chosen from the estimate. Otherwise the run stops with a failed import, `rpc_unreachable` or a classified exception. |
| Anchor.Connect | examples/auto_evidence_agent.py:403-429 | The imports come first, then `is_connected(url)`, then `from_key(key)`, each with the exception it really raises. An account is obtained exactly when the imports succeed, the node answers connected and the key is accepted. Otherwise `rpc_unreachable` (exactly when the node answers not connected) or the classified exception ends the run. |
| Anchor.ReadNode | examples/auto_evidence_agent.py:431-452 | The nonce of the account's address, the chain id, the gas price and the gas estimate for the calldata are asked in that order. A transaction is built exactly when the first three answer, and it is the anchoring transaction made from those answers. A failure of one of them ends the run with its classified exception; a failing estimate does not. |
| Anchor.Broadcast | examples/auto_evidence_agent.py:454-495 | The prepared transaction is signed first, and what is sent is that signed transaction. Then come the wait for the hash the node answered and the signature of the attestation of `evidence_hash` and the attestation time. Every recorded exception is the one the account or the node raise. The run succeeds exactly when signing, sending and signing the attestation of `evidence_hash` succeed. Only the receipt wait may fail without ending the run (its status is then null). A success reports the broadcast hash and the attestation signature. |
| Anchor.Send | examples/auto_evidence_agent.py:454-456 | The prepared transaction is signed, and the signed bytes are sent. The hash is obtained exactly when both succeed, and it is what the node answered for those bytes; otherwise the classified exception ends the run. |
| Anchor.Attest | examples/auto_evidence_agent.py:458-495 | The receipt wait comes first, then the attestation of `evidence_hash` and the attestation time is signed. The result is a success exactly when that signature succeeds, and it then reports the chain id, the endpoint, the address, the hex of the transaction hash, the receipt status (null when the wait failed), the hashes, the signature, the reported time, the record and the explorer link. |
| Anchor.AnchoredRecord | examples/auto_evidence_agent.py:352-490 | A run that anchors reports the record it was given as `evidence_data`, and the hex SHA-256 of that record's canonical text as `evidence_hash`. |
| Anchor.SameRecordSameHash | examples/auto_evidence_agent.py:352-353 | Records that differ only in the order of their keys are hashed from the same text and get the same evidence hash. |
| Json.CanonicalIgnoresKeyOrder | examples/auto_evidence_agent.py:352 | `json.dumps(sort_keys=True)` produces the same text for values that are equal up to key order. |
| Json.NormalizeSorts | examples/auto_evidence_agent.py:352 | After `sort_keys` normalisation, every dict at every depth has its keys in strictly increasing order. |
| Json.NormalizeKeepsContent | examples/auto_evidence_agent.py:352 | Normalisation keeps each dict's key set and looks up the normalised form of each key's value. |
| Anchor.TagBytesSpellTag | examples/auto_evidence_agent.py:356 | The 18 prefix bytes are the ASCII codes of `SPOON_EVIDENCE_V1\|`. |
| Anchor.PayloadLayout | examples/auto_evidence_agent.py:356-357 | The payload is 50 bytes: the tag, then the 32 digest bytes. |
| Anchor.DataHexShape | examples/auto_evidence_agent.py:358 | `data_hex` is `0x` followed by 100 lowercase hex digits. |
| Anchor.DataHexDecodes | examples/auto_evidence_agent.py:353-358 | The digits of `data_hex` decode back to the payload. Its last 64 digits are `evidence_hash` and decode to the digest. |
| Anchor.DataHexInjective | examples/auto_evidence_agent.py:355-358 | Different digests give different calldata. |
| Bytes.FromHexOfHex | examples/auto_evidence_agent.py:357 | `bytes.fromhex(b.hex()) == b`. |
| Bytes.HexInjective | examples/auto_evidence_agent.py:353 | Distinct byte strings have distinct hex spellings. |
| Anchor.FirstSettingChoice | examples/auto_evidence_agent.py:361-366 | The endpoint is absent exactly when no name is set. Otherwise it is the value of a name all of whose predecessors are unset (empty counts as unset). |
| Anchor.ExplorerShape | examples/auto_evidence_agent.py:470-474 | The explorer link is the scan URL without trailing slashes, then `/tx/`, then the transaction hash. |
| Anchor.AttestationInjective | examples/auto_evidence_agent.py:467 | A signed statement names exactly one evidence hash and one timestamp. |
| Anchor.Classify | examples/auto_evidence_agent.py:497-517 | `missing_dependencies` is chosen exactly for an `ImportError`, `onchain_failed` for any other exception, and each carries the exception's text. |
| Anchor.ErrorCodesDistinct | examples/auto_evidence_agent.py:366-517 | Each kind of failure has its own `error` code. |
| Anchor.FailedJson | examples/auto_evidence_agent.py:366-517 | A failure result is a dict with distinct keys, `status` `error` and the failure's own code. |
| Anchor.AnchoredJson | examples/auto_evidence_agent.py:476-495 | A success result is a dict with distinct keys, `status` `success`, and no `error` or `message`. It carries the transaction hash, evidence hash, signature, timestamp, record and explorer link. |
| Monitor.Detect | examples/auto_evidence_agent.py:272-282 | The scan returns, in message order, each message with at least one matching keyword, tagged with its matched keywords. |
| Monitor.DetectionsExact | examples/auto_evidence_agent.py:275-281 | Exactly the messages in which some keyword occurs are detected, each with its own matched keywords. There are never more detections than messages. |
| Monitor.DetectionsAppend | examples/auto_evidence_agent.py:275 | Scanning a concatenation of message lists scans each part in turn. |
| Monitor.MatchedKeywordsMembers | examples/auto_evidence_agent.py:276-277 | A keyword is reported exactly when it is one of the keywords and occurs in the content, ignoring case. |
| Monitor.MatchedKeywordsAppend | examples/auto_evidence_agent.py:277 | The filter keeps keyword order. |
| Monitor.Execute | examples/auto_evidence_agent.py:243-297 | The result is `Found` exactly when some message matches some keyword, and then it holds the detections. Otherwise it names the keywords. |
| Monitor.ReportJsonFields | examples/auto_evidence_agent.py:287-297 | `status` is `success` exactly for a report with detections, and then `detected_count` is their number and `messages` lists them. |
| Upload.Validate | examples/user_evidence_upload_agent.py:103-119 | `empty_content` is chosen exactly when the content is all whitespace. `unsupported_type` is chosen exactly when the content is not blank and the type is not among the seven accepted, and it names that type. |
| Text.BlankIffAllSpace | examples/user_evidence_upload_agent.py:103 | `s.strip()` is empty exactly when every character is whitespace. |
| Upload.ErrorJsonFields | examples/user_evidence_upload_agent.py:101-207 | A rejection or an exception is reported with `status` `error`, its own code and its own message: `证据内容不能为空`, `不支持的证据类型: ` followed by the type, or `处理失败: ` followed by the exception text. |
| Upload.EvidenceTextExtends | examples/user_evidence_upload_agent.py:121-129 | The evidence text extends the given content. It is unchanged exactly when there is no readable file at the path. Otherwise the heading and the file's text follow the content. |
| Upload.BaseMetadata | examples/user_evidence_upload_agent.py:132-134 | `update` into an empty dict gives the caller's keys without duplicates, the caller's fields themselves when already distinct, and nothing when no dict was given. |
| Upload.PutGiven | examples/user_evidence_upload_agent.py:135-140 | A conditional assignment adds its key only for a non-empty value. It changes only that key and keeps keys distinct. |
| Upload.MergeMetadataView | examples/user_evidence_upload_agent.py:132-140 | The merged metadata has distinct keys: the caller's plus those of `description`, `uploader_address` and `file_name` that were given. Each named key holds its argument, and every other key holds the caller's value. |
| Upload.Merge | examples/user_evidence_upload_agent.py:132-140 | The step-by-step merge computes the merged metadata. |
| Upload.RecordDictFields | examples/user_evidence_upload_agent.py:142-149 | The record literal has distinct keys, no `file_info`, and each key holds its own value. |
| Upload.RecordFields | examples/user_evidence_upload_agent.py:142-157 | The record is a dict with distinct keys. It holds the stripped evidence text, the type, the source, the timestamp, the uploader (`user` when no address was given) and the merged metadata. It has `file_info` exactly when a path was given, holding the path, whether it exists and its size (0 when missing). |
| Upload.BuildRecord | examples/user_evidence_upload_agent.py:121-157 | The imperative build yields the evidence text and the record. It raises exactly when asking the size of an existing file raises, and it raises that fault. |
| Upload.UnparsedKeptRaw | examples/user_evidence_upload_agent.py:166-169 | A storage answer that is not JSON, or not a string, is kept under `raw` and does not count as an inner failure. |
| Upload.WrapJsonFields | examples/user_evidence_upload_agent.py:171-199 | An inner `status` `error` becomes `onchain_failed` with the message `证据上链失败`. Anything else becomes a success with the message `证据上传并上链成功`. Such a success carries the preview. Either way the storage tool's result is kept under `onchain`. |
| Upload.PreviewFields | examples/user_evidence_upload_agent.py:187-194 | The preview's `content_preview` is the first 200 characters of the unstripped text, next to the uploader address and the file name. |
| Upload.Execute | examples/user_evidence_upload_agent.py:87-207 | `Upload.Executed` holds. `status` is `success` when the record was anchored and `error` on every other path. On each path the reply is that path's exact dict, message included: the rejection dict, the exception dict, or the wrapped storage result. Each error code is reported exactly in its own case: blank content, then an unknown type, then a failing size query. The storage tool is called exactly when the checks pass, with the built record, and its run is one `Anchor.Executed` describes. `success` is reported exactly when the record was anchored, and `onchain_failed` exactly when the storage tool failed. The storage result is kept under `onchain`. A success reports the stored record, whose evidence hash is the hash of that record, and its preview is built from the request. |
| Http.DeclaredType | app.py:48-51 | The type is the sent `evidence_type`, or `document` when none was sent, except that the legacy `text` is read as `document`; so it is never `text`. |
| Http.ToolRequestFacts | app.py:48-86 | The file reaches the tool without loss. Valid UTF-8 passes as its text under the declared type; anything else passes as base64 that decodes back to the bytes, under `binary`. Source, uploader, description and file name come from the form. The signer is the user address or `local`. The metadata holds only `content_encoding`, which is `base64` exactly for `binary`. |
| Http.BinaryTextLabelledBase64 | app.py:57-85 | A file declared `binary` that is valid UTF-8 is passed as plain text but labelled `base64`. |
| Bytes.Utf8RoundTrip | app.py:57-60 | Decoding the UTF-8 encoding of a text gives the text back. |
| Bytes.Utf8DecodeSound | app.py:57-60 | A successful strict decode encodes back to the same bytes. |
| Bytes.Base64RoundTrip | app.py:62-64 | Decoding the base64 encoding of any bytes gives them back. |
| Bytes.Base64Alphabet | app.py:64 | Every character of the base64 text is from the base64 alphabet, except padding `=` in the last two positions. |
| Http.ReadForm | app.py:48-65 | The form read step by step gives the request that `Http.ToolRequestFacts` describes. |
| Http.FlattenStatus | app.py:97-115 | `success` holds exactly when the tool's status is `success`. A missing or empty message falls back to `OK` or `FAILED`. `error` is copied, and the whole reply is kept under `result`. |
| Http.FlattenOnchain | app.py:100-113 | `tx_hash`, `evidence_hash`, `signature` and `timestamp` come from `onchain` when it is a dict and are null otherwise; `explorer_url` is its `explorer`. |
| Http.UnparsedReplies | app.py:119-131 | A reply that is not JSON or not text yields 200 with `success` false and `invalid_json` or `invalid_result_type`. |
| Http.Server.constructor | app.py:18 | A new server has no upload tool. |
| Http.Server.InitUploadAgent | app.py:20-29 | The tool is created, and true returned, exactly when importing it succeeds. A failure leaves the state as it was. |
| Http.Server.UploadEvidence | app.py:32-135 | The endpoint answers 500 without a tool, 400 without a file and 400 without a file name. Otherwise it calls the tool exactly once with the request built from the form and the file missing from disk, the tool does what `Upload.Executed` describes, and the answer is 200 with the tool's reply flattened. `success` is true exactly when the evidence was anchored, and then `evidence_hash` is the hash of the stored record and `tx_hash`, `signature` and `explorer_url` are the anchor's. |

## Left out

- The `.env` loading, `os.getenv` and the vault: modelled as an environment map and a three-way vault answer. Vault prompting (`prompt=True`) and key zeroing are not modelled. Only empty strings count as unset, as with Python truthiness.
- SHA-256, secp256k1 signing, address derivation and the node: these are oracle parameters. Their correctness is not modelled; only which arguments they receive and how their answers and exceptions are used.
- Anchor.Submit: the POA middleware injection is not a modelled call. Its exceptions are swallowed by the source and it has no other effect the model can see.
- Anchor.Broadcast: the receipt oracle is given as an integer status. How the source reads `status` from the receipt object or dict (missing gives 0) is not modelled.
- Anchor.Execute: the clock is two given readings, one for the attestation and one for `timestamp`. How `isoformat` produces them is not modelled.
- `sign_with`: the storage tool accepts it and never uses it. The model passes it along and it plays no part.
- Anchor.Execute: the canonical `json.dumps` and the UTF-8 `encode` (auto_evidence_agent.py lines 352-353) run before the storage tool's `try`. A record holding a value `json` cannot serialise, or a string with a lone surrogate, makes the storage tool raise there, and the upload tool then answers `exception`. The model cannot express that case: its JSON values hold only serialisable values, and its characters exclude surrogates.
- Anchor.Attest: the transaction hash and the signature are written as lowercase hex without a `0x` prefix, which is what `HexBytes.hex()` gives from hexbytes 1.0 (web3 7) on. Older versions add `0x`; that variant, which would change `tx_hash`, `signature` and the explorer link, is not modelled.
- Nonce serialisation and concurrent uploads: not modelled; each run is sequential.
- `json.dumps` of the results: the model keeps the dicts themselves. The `ensure_ascii` escaping and indentation affect only the display. The storage tool's string, parsed again by the upload tool, is taken as the same dict (`json.loads(json.dumps(x)) == x` for the string, integer, boolean, null, list and dict values used here). Floats, which caller metadata may hold, are not modelled.
- Json.CanonicalIgnoresKeyOrder: canonical text is defined on the normalised value, with `json.dumps` string escaping for `ensure_ascii=False`.
- Monitor.Execute: the source scans a fixed list of three mock messages with the current time. The model takes the message list as an input, so the contracts hold for any list. The `platforms` argument is only logged, and `duration` only bounds a sleep, so neither is modelled.
- Monitor.MatchedKeywordsMembers: `lower()` is modelled for ASCII letters only. Python's full Unicode case mapping is not modelled.
- Monitor.ReportJsonFields: the `no_matches` message uses Python's list `str` with plain quoting. Python escapes quotes, backslashes, newlines, tabs and other non-printable characters inside a keyword there; none of that escaping is modelled.
- The first `WeChatWebMonitorTool.execute` (overridden by the second), the WeChat Work and DingTalk clients, the agent classes and `main.py` are not part of this model.
- The lazy creation of the sign, broadcast and storage tools inside the agent tools: not modelled; the storage tool is called directly.
- Upload.BuildRecord: the file system is one probe per request. The three `os.path.exists` calls (user_evidence_upload_agent.py lines 122, 155 and 156) are assumed to agree, and a read failure only means the text is not appended. In the upload tool, the exception modelled is a failing `getsize`.
- Http.Server.UploadEvidence: Flask, CORS, the event loop and `print` logging are not modelled. The tool is called with no file path, as the endpoint does. The endpoint's outer `except` is reached only through `parsed_result.get` on a non-dict reply, which gives the 500 answer with the `AttributeError` text. Other exceptions of the framework are not modelled.
- `Anchor.GasLimit` has no row of its own: its choice (twice the estimate, or 80000) is part of what `Anchor.Submit` and `Anchor.Prepare` state.
