/**
 * The evidence storage tool: it anchors an evidence record on chain by
 * sending a zero-value transaction from the signing account to itself whose
 * calldata is a fixed tag followed by the SHA-256 of the record's canonical
 * JSON. The environment, the secret vault, the web3 libraries, the node, the
 * signer and the clock are inputs; hashing and signing are oracles.
 */
module Anchor {
  import opened Wrappers
  import opened Bytes
  import opened Text
  import opened Json

  /** A SHA-256 digest. */
  type Digest = d: seq<Byte> | |d| == 32 witness seq(32, _ => 0)

  // ------------------------------------------------------------ hash and payload

  /** The text that is hashed: the record with its keys sorted at every level. */
  function HashInput(evidence: Json): seq<Byte> {
    Utf8Encode(Canonical(evidence))
  }

  /** `evidence_hash`: the hex digest of the canonical record. */
  function EvidenceHash(sha256: seq<Byte> -> Digest, evidence: Json): string {
    Hex(sha256(HashInput(evidence)))
  }

  /** Records that are equal up to key order get the same evidence hash. */
  lemma SameRecordSameHash(sha256: seq<Byte> -> Digest, a: Json, b: Json)
    requires SameUpToKeyOrder(a, b)
    ensures HashInput(a) == HashInput(b)
    ensures EvidenceHash(sha256, a) == EvidenceHash(sha256, b)
  {
    CanonicalIgnoresKeyOrder(a, b);
  }

  const Tag: string := "SPOON_EVIDENCE_V1|"

  /** The payload prefix, the bytes literal `b"SPOON_EVIDENCE_V1|"`. */
  const TagBytes: seq<Byte> := [83, 80, 79, 79, 78, 95, 69, 86, 73, 68, 69, 78, 67, 69, 95, 86, 49, 124]

  /** The prefix bytes are the ASCII codes of the tag text, one byte per character. */
  lemma TagBytesSpellTag()
    ensures |TagBytes| == |Tag| == 18
    ensures forall i :: 0 <= i < 18 ==> TagBytes[i] == Tag[i] as int < 0x80
  {
  }

  /** The calldata bytes: the tag followed by the digest. */
  function Payload(d: Digest): seq<Byte> {
    TagBytes + d
  }

  /** `data_hex`: the payload as `0x`-prefixed lowercase hex. */
  function DataHex(d: Digest): string {
    "0x" + Hex(Payload(d))
  }

  /** The payload is always 50 bytes: the 18-byte tag, then the 32 digest bytes. */
  lemma PayloadLayout(d: Digest)
    ensures |Payload(d)| == 50
    ensures Payload(d)[..18] == TagBytes && Payload(d)[18..] == d
  {
  }

  /** `data_hex` is `0x` followed by 100 lowercase hex digits. */
  lemma DataHexShape(d: Digest)
    ensures |DataHex(d)| == 102 && DataHex(d)[..2] == "0x"
    ensures forall i :: 2 <= i < 102 ==> IsLowerHexDigit(DataHex(d)[i])
  {
    var s := DataHex(d);
    var h := Hex(Payload(d));
    assert forall i :: 2 <= i < 102 ==> s[i] == h[i - 2];
  }

  /**
   * The digits of `data_hex` decode to the payload, and its last 64 digits
   * are `evidence_hash` and decode to the digest.
   */
  lemma DataHexDecodes(d: Digest)
    ensures |DataHex(d)| == 102
    ensures FromHex(DataHex(d)[2..]) == Some(Payload(d))
    ensures DataHex(d)[38..] == Hex(d) && FromHex(DataHex(d)[38..]) == Some(d)
  {
    var s := DataHex(d);
    assert s[2..] == Hex(Payload(d));
    FromHexOfHex(Payload(d));
    HexSuffix(TagBytes, d);
    assert s[38..] == Hex(Payload(d))[36..];
    FromHexOfHex(d);
  }

  /** Different digests give different calldata. */
  lemma DataHexInjective(d1: Digest, d2: Digest)
    requires DataHex(d1) == DataHex(d2)
    ensures d1 == d2
  {
    DataHexDecodes(d1);
    DataHexDecodes(d2);
  }

  // ------------------------------------------------------------ configuration

  /** The process environment, after `.env` loading. */
  type Env = map<string, string>

  /** `os.getenv(name)` taken as a Python truth value: the value when it is set and non-empty. */
  function Setting(env: Env, name: string): Option<string> {
    if name in env && env[name] != "" then Some(env[name]) else None
  }

  /** The variable names tried for the RPC endpoint, in order. */
  const RpcUrlNames: seq<string> := ["WEB3_RPC_URL", "RPC_URL", "NEOX_RPC_URL"]

  /** `os.getenv(n1) or os.getenv(n2) or ...`. */
  function FirstSetting(env: Env, names: seq<string>): Option<string> {
    if names == [] then None
    else if Setting(env, names[0]).Some? then Setting(env, names[0])
    else FirstSetting(env, names[1..])
  }

  /**
   * The chosen value is the setting of the first name that is set: it is
   * absent exactly when no name is set, and otherwise belongs to a name all of
   * whose predecessors are unset.
   */
  lemma {:induction false} FirstSettingChoice(env: Env, names: seq<string>) returns (i: nat)
    ensures FirstSetting(env, names).None? <==> forall n :: n in names ==> Setting(env, n).None?
    ensures FirstSetting(env, names).Some? ==>
              && i < |names| && FirstSetting(env, names) == Setting(env, names[i])
              && forall j :: 0 <= j < i ==> Setting(env, names[j]).None?
  {
    if names == [] {
      i := 0;
    } else if Setting(env, names[0]).Some? {
      i := 0;
    } else {
      var k := FirstSettingChoice(env, names[1..]);
      i := k + 1;
      assert forall n :: n in names ==> n == names[0] || n in names[1..];
      if FirstSetting(env, names[1..]).Some? {
        assert forall j :: 1 <= j < i ==> names[j] == names[1..][j - 1];
      }
    }
  }

  /**
   * What the secret vault yields for `PRIVATE_KEY`: no usable vault (its
   * import, decryption or lookup raised), no such entry, or the decoded value.
   */
  datatype VaultReply = VaultUnavailable | VaultLacks | VaultHolds(secret: string)

  /** The vault supplies a key. */
  predicate VaultHasKey(vault: VaultReply) {
    vault.VaultHolds? && vault.secret != ""
  }

  /** The signing key: a non-empty vault entry overrides the plain environment value. */
  function PrivateKey(env: Env, vault: VaultReply): Option<string> {
    if VaultHasKey(vault) then Some(vault.secret) else Setting(env, "PRIVATE_KEY")
  }

  /** `SCAN_URL.rstrip("/") + "/tx/" + tx_hash`, when `SCAN_URL` is set. */
  function ExplorerUrl(scanUrl: Option<string>, txHash: string): Option<string> {
    if scanUrl.Some? then Some(RStripChar(scanUrl.value, '/') + "/tx/" + txHash) else None
  }

  /**
   * The explorer link is the scan URL without its trailing slashes, then
   * `/tx/` and the transaction hash.
   */
  lemma ExplorerShape(scanUrl: string, txHash: string)
    ensures var url := ExplorerUrl(Some(scanUrl), txHash).value;
      exists base ::
        && base <= scanUrl && (base == [] || base[|base| - 1] != '/')
        && (forall i :: |base| <= i < |scanUrl| ==> scanUrl[i] == '/')
        && url == base + "/tx/" + txHash
  {
    var base := RStripChar(scanUrl, '/');
    assert base == scanUrl[..|base|];
  }

  /** The statement signed with the account key. */
  function Attestation(evidenceHash: string, timestamp: string): string {
    "Evidence Hash: " + evidenceHash + "\nTimestamp: " + timestamp
  }

  /** A signed statement names exactly one hash and one timestamp. */
  lemma AttestationInjective(h1: string, t1: string, h2: string, t2: string)
    requires |h1| == |h2|
    requires Attestation(h1, t1) == Attestation(h2, t2)
    ensures h1 == h2 && t1 == t2
  {
    var a1, a2 := Attestation(h1, t1), Attestation(h2, t2);
    assert h1 == a1[15..15 + |h1|] && h2 == a2[15..15 + |h2|];
    assert t1 == a1[15 + |h1| + 12..] && t2 == a2[15 + |h2| + 12..];
  }

  // ------------------------------------------------------------ the outside world

  /** Whether an exception is an `ImportError`. */
  datatype FaultKind = ImportFailure | OtherFailure

  /** An exception: its class and its `str()`. */
  datatype Fault = Fault(kind: FaultKind, text: string)

  /** What a call into a library or the node does: return a value or raise. */
  datatype Reply<T> = Ok(value: T) | Raised(fault: Fault) {
    function Failure(): Option<Fault> {
      if Raised? then Some(fault) else None
    }
  }

  /** A legacy transaction, as the dict passed to `sign_transaction`. */
  datatype Tx = Tx(chainId: int, nonce: int, to: string, value: int, data: string, gas: int, gasPrice: int)

  /** An `eth_account` account: its address and its two signing operations. */
  datatype Account = Account(
    address: string,
    signTransaction: Tx -> Reply<seq<Byte>>,
    signMessage: string -> Reply<seq<Byte>>)

  /** The web3 libraries and the node behind the RPC URL. */
  datatype Chain = Chain(
    imports: Option<Fault>,
    isConnected: string -> Reply<bool>,
    fromKey: string -> Reply<Account>,
    transactionCount: string -> Reply<int>,
    chainId: Reply<int>,
    gasPrice: Reply<int>,
    estimateGas: (string, string) -> Reply<int>,
    sendRawTransaction: seq<Byte> -> Reply<seq<Byte>>,
    waitForReceipt: seq<Byte> -> Reply<int>)

  /** The two clock readings: the one in the signed statement and the one reported. */
  datatype Clock = Clock(attestedAt: string, reportedAt: string)

  /** A call made into the libraries or the node, in the order made. */
  datatype Call =
    | ImportLibraries
    | IsConnected(url: string)
    | FromKey(key: string)
    | GetTransactionCount(address: string)
    | GetChainId
    | GetGasPrice
    | EstimateGas(from: string, to: string, amount: int, data: string)
    | SignTransaction(tx: Tx)
    | SendRawTransaction(raw: seq<Byte>)
    | WaitForReceipt(txHash: seq<Byte>)
    | SignMessage(text: string)

  /** A call and the exception it raised, if any. */
  datatype Effect = Effect(call: Call, raised: Option<Fault>)

  /** The only calls whose exceptions `execute` catches and carries on from. */
  predicate Swallowed(c: Call) {
    c.EstimateGas? || c.WaitForReceipt?
  }

  /** A fault that ends the run: the last effect raised and was not swallowed. */
  predicate EndsInFault(trace: seq<Effect>) {
    trace != [] && trace[|trace| - 1].raised.Some? && !Swallowed(trace[|trace| - 1].call)
  }

  /** Gas: twice the estimate, or 80000 when estimation raises. */
  function GasLimit(estimate: Reply<int>): int {
    if estimate.Ok? then 2 * estimate.value else 80000
  }

  /**
   * The anchoring transaction for `digest`: the node's chain id, the sender's
   * nonce and the gas price, a zero-value transfer to the sender itself
   * carrying `data_hex`, with its gas chosen from the node's estimate.
   */
  function AnchorTx(address: string, digest: Digest, chain: Chain): Tx
    requires chain.transactionCount(address).Ok? && chain.chainId.Ok? && chain.gasPrice.Ok?
  {
    Tx(chain.chainId.value, chain.transactionCount(address).value, address, 0, DataHex(digest),
       GasLimit(chain.estimateGas(address, DataHex(digest))), chain.gasPrice.value)
  }

  /** The exception, if any, that a call raises; the account of `key` does the signing. */
  function Answer(key: string, chain: Chain, call: Call): Option<Fault> {
    match call
    case ImportLibraries => chain.imports
    case IsConnected(url) => chain.isConnected(url).Failure()
    case FromKey(k) => chain.fromKey(k).Failure()
    case GetTransactionCount(address) => chain.transactionCount(address).Failure()
    case GetChainId => chain.chainId.Failure()
    case GetGasPrice => chain.gasPrice.Failure()
    case EstimateGas(from, _, _, data) => chain.estimateGas(from, data).Failure()
    case SignTransaction(tx) =>
      if chain.fromKey(key).Ok? then chain.fromKey(key).value.signTransaction(tx).Failure() else None
    case SendRawTransaction(raw) => chain.sendRawTransaction(raw).Failure()
    case WaitForReceipt(txHash) => chain.waitForReceipt(txHash).Failure()
    case SignMessage(text) =>
      if chain.fromKey(key).Ok? then chain.fromKey(key).value.signMessage(text).Failure() else None
  }

  /** Every recorded effect is what its call really did: it raised exactly what the libraries or the node raise. */
  predicate Answered(key: string, chain: Chain, trace: seq<Effect>) {
    forall i :: 0 <= i < |trace| ==> trace[i].raised == Answer(key, chain, trace[i].call)
  }

  /** Recording one more answered call keeps the trace answered. */
  lemma AnsweredAppend(key: string, chain: Chain, trace: seq<Effect>, call: Call)
    requires Answered(key, chain, trace)
    ensures Answered(key, chain, trace + [Effect(call, Answer(key, chain, call))])
  {
    var t := trace + [Effect(call, Answer(key, chain, call))];
    assert forall i :: 0 <= i < |trace| ==> t[i] == trace[i];
  }

  /** Two answered traces joined are answered. */
  lemma AnsweredJoin(key: string, chain: Chain, a: seq<Effect>, b: seq<Effect>)
    requires Answered(key, chain, a) && Answered(key, chain, b)
    ensures Answered(key, chain, a + b)
  {
    var t := a + b;
    assert forall i :: 0 <= i < |a| ==> t[i] == a[i];
    assert forall i :: |a| <= i < |t| ==> t[i] == b[i - |a|];
  }

  // ------------------------------------------------------------ results

  datatype Outcome =
    | Anchored(
        chainId: int, rpcUrl: string, from: string, txHash: string,
        receiptStatus: Option<int>, evidenceHash: string, dataHex: string,
        signature: string, timestamp: string, evidence: Json, explorer: Option<string>)
    | MissingRpcUrl
    | MissingPrivateKey
    | RpcUnreachable(rpcUrl: string)
    | MissingDependencies(detail: string)
    | OnchainFailed(detail: string)

  /** The `except ImportError` / `except Exception` split. */
  function Classify(f: Fault): (r: Outcome)
    ensures r.MissingDependencies? <==> f.kind == ImportFailure
    ensures r.MissingDependencies? || r.OnchainFailed?
    ensures r.detail == f.text
  {
    if f.kind == ImportFailure then MissingDependencies(f.text) else OnchainFailed(f.text)
  }

  /** The `error` code of a failed run. */
  function ErrorCode(o: Outcome): string
    requires !o.Anchored?
  {
    match o
    case MissingRpcUrl => "missing_rpc_url"
    case MissingPrivateKey => "missing_private_key"
    case RpcUnreachable(_) => "rpc_unreachable"
    case MissingDependencies(_) => "missing_dependencies"
    case OnchainFailed(_) => "onchain_failed"
  }

  /** Each kind of failure has its own error code. */
  lemma ErrorCodesDistinct(a: Outcome, b: Outcome)
    requires !a.Anchored? && !b.Anchored?
    requires ErrorCode(a) == ErrorCode(b)
    ensures a.MissingRpcUrl? == b.MissingRpcUrl? && a.MissingPrivateKey? == b.MissingPrivateKey?
    ensures a.RpcUnreachable? == b.RpcUnreachable? && a.MissingDependencies? == b.MissingDependencies?
    ensures a.OnchainFailed? == b.OnchainFailed?
  {
    var ca, cb := ErrorCode(a), ErrorCode(b);
    assert ca[..3] == cb[..3] && ca[|ca| - 3..] == cb[|cb| - 3..];
  }

  function OptStr(s: Option<string>): Json {
    if s.Some? then Str(s.value) else Null
  }

  function OptInt(i: Option<int>): Json {
    if i.Some? then Int(i.value) else Null
  }

  /** The fields of a success result, in the order the tool writes them. */
  function SuccessFields(o: Outcome): seq<Field>
    requires o.Anchored?
  {
    [Field("status", Str("success")), Field("mode", Str("calldata_anchor_tx")), Field("chain_id", Int(o.chainId)),
     Field("rpc_url", Str(o.rpcUrl)), Field("from", Str(o.from)), Field("tx_hash", Str(o.txHash)),
     Field("receipt_status", OptInt(o.receiptStatus)), Field("evidence_hash", Str(o.evidenceHash)),
     Field("data_hex", Str(o.dataHex)), Field("signature", Str(o.signature)), Field("timestamp", Str(o.timestamp)),
     Field("evidence_data", o.evidence), Field("explorer", OptStr(o.explorer))]
  }

  /** The keys of a success result are pairwise different. */
  lemma SuccessKeysDistinct(o: Outcome)
    requires o.Anchored?
    ensures forall i, j :: 0 <= i < j < |SuccessFields(o)| ==> SuccessFields(o)[i].key != SuccessFields(o)[j].key
  {
  }

  /** The keys every failure result starts with. */
  const FailureKeys: seq<string> := ["status", "error", "message"]

  /** The human-readable message of a failure. */
  function ErrorMessage(o: Outcome): string
    requires !o.Anchored?
  {
    match o
    case MissingRpcUrl => "缺少 RPC 配置：请设置 WEB3_RPC_URL（或兼容使用 RPC_URL / NEOX_RPC_URL）"
    case MissingPrivateKey => "缺少 PRIVATE_KEY：无法对交易签名并广播上链"
    case RpcUnreachable(rpcUrl) => "无法连接 RPC：" + rpcUrl
    case MissingDependencies(detail) => "缺少依赖，无法上链：" + detail
    case OnchainFailed(detail) => "上链失败: " + detail
  }

  /** The dict the tool serialises as its result. */
  function ToJson(o: Outcome): Json {
    if o.Anchored? then
      Obj(SuccessFields(o))
    else
      var common := [Str("error"), Str(ErrorCode(o)), Str(ErrorMessage(o))];
      if o.RpcUnreachable? then
        Dict(FailureKeys + ["rpc_url"], common + [Str(o.rpcUrl)])
      else if o.MissingDependencies? then
        Dict(FailureKeys + ["hint"], common + [Str("请安装: pip install web3 eth-account")])
      else
        Dict(FailureKeys, common)
  }

  /**
   * A success result is a dict with `status` `success` and no `error` or
   * `message`, carrying the transaction hash, the evidence hash, the
   * signature, the timestamp, the record and the explorer link.
   */
  lemma AnchoredJson(o: Outcome)
    requires o.Anchored?
    ensures ToJson(o).Obj? && DistinctKeys(ToJson(o).fields)
    ensures Get(ToJson(o), "status") == Some(Str("success"))
    ensures Get(ToJson(o), "message").None? && Get(ToJson(o), "error").None?
    ensures Get(ToJson(o), "tx_hash") == Some(Str(o.txHash))
    ensures Get(ToJson(o), "evidence_hash") == Some(Str(o.evidenceHash))
    ensures Get(ToJson(o), "signature") == Some(Str(o.signature))
    ensures Get(ToJson(o), "timestamp") == Some(Str(o.timestamp))
    ensures Get(ToJson(o), "explorer") == Some(OptStr(o.explorer))
    ensures Get(ToJson(o), "evidence_data") == Some(o.evidence)
  {
    SuccessLookups(o);
    LookupUnlike(SuccessFields(o), "message");
    LookupUnlike(SuccessFields(o), "error");
  }

  /** Each key of a success result finds the value written under it. */
  lemma SuccessLookups(o: Outcome)
    requires o.Anchored?
    ensures DistinctKeys(SuccessFields(o))
    ensures Lookup(SuccessFields(o), "status") == Some(Str("success"))
    ensures Lookup(SuccessFields(o), "tx_hash") == Some(Str(o.txHash))
    ensures Lookup(SuccessFields(o), "evidence_hash") == Some(Str(o.evidenceHash))
    ensures Lookup(SuccessFields(o), "signature") == Some(Str(o.signature))
    ensures Lookup(SuccessFields(o), "timestamp") == Some(Str(o.timestamp))
    ensures Lookup(SuccessFields(o), "explorer") == Some(OptStr(o.explorer))
    ensures Lookup(SuccessFields(o), "evidence_data") == Some(o.evidence)
  {
    var fs := SuccessFields(o);
    SuccessKeysDistinct(o);
    DistinctLookup(fs);
    assert fs[0].key == "status" && fs[5].key == "tx_hash" && fs[7].key == "evidence_hash";
    assert fs[9].key == "signature" && fs[10].key == "timestamp";
    assert fs[11].key == "evidence_data" && fs[12].key == "explorer";
  }

  /** A failure result is a dict with `status` `error` and the failure's own `error` code. */
  lemma FailedJson(o: Outcome)
    requires !o.Anchored?
    ensures ToJson(o).Obj? && DistinctKeys(ToJson(o).fields)
    ensures Get(ToJson(o), "status") == Some(Str("error"))
    ensures Get(ToJson(o), "error") == Some(Str(ErrorCode(o)))
  {
    var keys := if o.RpcUnreachable? then FailureKeys + ["rpc_url"]
                else if o.MissingDependencies? then FailureKeys + ["hint"]
                else FailureKeys;
    var fs := ToJson(o).fields;
    assert forall i :: 0 <= i < |fs| ==> fs[i].key == keys[i];
    DistinctLookup(fs);
  }

  // ------------------------------------------------------------ execute

  /** What is signed: the anchoring transaction for `digest`, built from the node's answers. */
  predicate AnchorsDigest(tx: Tx, address: string, digest: Digest, chain: Chain) {
    && chain.transactionCount(address).Ok? && chain.chainId.Ok? && chain.gasPrice.Ok?
    && tx == AnchorTx(address, digest, chain)
  }

  /**
   * The calls before signing, in order: the libraries are loaded, the node
   * at `url` is asked, the account is derived from `key`, the nonce, chain id
   * and gas price are read, and the gas for the anchoring calldata is estimated.
   */
  predicate Opens(url: string, key: string, digest: Digest, chain: Chain, trace: seq<Effect>) {
    && trace != [] && trace[0].call == ImportLibraries
    && (|trace| > 1 ==> trace[1].call == IsConnected(url))
    && (|trace| > 2 ==> trace[2].call == FromKey(key))
    && (|trace| > 3 ==>
          && chain.fromKey(key).Ok?
          && trace[3].call == GetTransactionCount(chain.fromKey(key).value.address)
          && (|trace| > 4 ==> trace[4].call == GetChainId)
          && (|trace| > 5 ==> trace[5].call == GetGasPrice)
          && (|trace| > 6 ==>
                trace[6].call == EstimateGas(chain.fromKey(key).value.address, chain.fromKey(key).value.address,
                                             0, DataHex(digest))))
  }

  /**
   * Only the gas estimate and the receipt wait may raise without ending the
   * run; any other exception ends it and is classified.
   */
  predicate FaultsHandled(outcome: Outcome, trace: seq<Effect>) {
    && (forall i :: 0 <= i < |trace| - 1 && trace[i].raised.Some? ==> Swallowed(trace[i].call))
    && (outcome.MissingDependencies? || outcome.OnchainFailed? <==> EndsInFault(trace))
    && (EndsInFault(trace) ==> outcome == Classify(trace[|trace| - 1].raised.value))
  }

  /** Whatever is signed is the anchoring transaction for `digest`, after the gas estimate for it. */
  predicate SignsAnchor(key: string, digest: Digest, chain: Chain, trace: seq<Effect>) {
    forall i :: 0 <= i < |trace| && trace[i].call.SignTransaction? ==>
      && chain.fromKey(key).Ok?
      && AnchorsDigest(trace[i].call.tx, chain.fromKey(key).value.address, digest, chain)
      && 0 < i
      && trace[i - 1].call == EstimateGas(trace[i].call.tx.to, trace[i].call.tx.to, 0, DataHex(digest))
  }

  /** Whatever is broadcast is what was signed just before. */
  predicate SendsSigned(key: string, chain: Chain, trace: seq<Effect>) {
    forall i :: 0 <= i < |trace| && trace[i].call.SendRawTransaction? ==>
      && 0 < i && trace[i - 1].call.SignTransaction? && trace[i - 1].raised.None?
      && chain.fromKey(key).Ok?
      && Ok(trace[i].call.raw) == chain.fromKey(key).value.signTransaction(trace[i - 1].call.tx)
  }

  /**
   * Every call that must succeed does: the libraries load, the node is up,
   * the key gives an account, the node answers the nonce, chain id and gas
   * price, the anchoring transaction is signed and accepted, and the
   * attestation is signed. The gas estimate and the receipt wait may fail.
   */
  predicate Accepts(url: string, key: string, digest: Digest, chain: Chain, clock: Clock) {
    && chain.imports.None? && chain.isConnected(url) == Ok(true) && chain.fromKey(key).Ok?
    && var account := chain.fromKey(key).value;
       && chain.transactionCount(account.address).Ok? && chain.chainId.Ok? && chain.gasPrice.Ok?
       && var signed := account.signTransaction(AnchorTx(account.address, digest, chain));
          && signed.Ok? && chain.sendRawTransaction(signed.value).Ok?
          && account.signMessage(Attestation(Hex(digest), clock.attestedAt)).Ok?
  }

  /**
   * A success broadcast a transaction, waited for it and signed the
   * attestation of the evidence hash (the three effects in `last`), and it
   * reports what was computed and returned.
   */
  predicate ReportsSuccess(url: string, key: string, digest: Digest, chain: Chain, clock: Clock,
                           scanUrl: Option<string>, evidence: Json, outcome: Outcome, last: seq<Effect>)
    requires outcome.Anchored?
  {
    var statement := Attestation(Hex(digest), clock.attestedAt);
    && chain.fromKey(key).Ok? && chain.chainId.Ok?
    && |last| == 3 && last[0].call.SendRawTransaction? && last[0].raised.None?
    && chain.sendRawTransaction(last[0].call.raw).Ok?
    && last[1].call == WaitForReceipt(chain.sendRawTransaction(last[0].call.raw).value)
    && last[2] == Effect(SignMessage(statement), None)
    && chain.fromKey(key).value.signMessage(statement).Ok?
    && outcome.evidenceHash == Hex(digest)
    && outcome.dataHex == DataHex(digest)
    && outcome.rpcUrl == url
    && outcome.from == chain.fromKey(key).value.address
    && outcome.chainId == chain.chainId.value
    && outcome.txHash == Hex(last[1].call.txHash)
    && outcome.receiptStatus == (var r := chain.waitForReceipt(last[1].call.txHash); if r.Ok? then Some(r.value) else None)
    && outcome.signature == Hex(chain.fromKey(key).value.signMessage(statement).value)
    && outcome.explorer == ExplorerUrl(scanUrl, outcome.txHash)
    && outcome.timestamp == clock.reportedAt
    && outcome.evidence == evidence
  }

  /**
   * The calls after the gas estimate, in the source's order: `tx` is signed;
   * only then are the signed bytes sent; only then is the hash the node
   * answered waited for; and last the attestation of `evidenceHash` is signed.
   */
  predicate Broadcasts(account: Account, tx: Tx, evidenceHash: string, chain: Chain, clock: Clock, rest: seq<Effect>) {
    && 1 <= |rest| <= 4
    && rest[0].call == SignTransaction(tx)
    && (|rest| > 1 ==>
          && rest[0].raised.None? && rest[1].call.SendRawTransaction?
          && Ok(rest[1].call.raw) == account.signTransaction(tx))
    && (|rest| > 2 ==>
          && rest[1].raised.None? && chain.sendRawTransaction(rest[1].call.raw).Ok?
          && rest[2].call == WaitForReceipt(chain.sendRawTransaction(rest[1].call.raw).value))
    && (|rest| > 3 ==> rest[3].call == SignMessage(Attestation(evidenceHash, clock.attestedAt)))
  }

  /** Everything `execute` promises once the endpoint and the key are known. */
  predicate Submitted(url: string, key: string, digest: Digest, chain: Chain, clock: Clock, scanUrl: Option<string>,
                      evidence: Json, outcome: Outcome, trace: seq<Effect>)
  {
    && Opens(url, key, digest, chain, trace)
    && Answered(key, chain, trace)
    && !outcome.MissingRpcUrl? && !outcome.MissingPrivateKey?
    && (outcome.RpcUnreachable? <==> chain.imports.None? && chain.isConnected(url) == Ok(false))
    && (outcome.RpcUnreachable? ==> outcome.rpcUrl == url && |trace| == 2)
    && (outcome.Anchored? <==> Accepts(url, key, digest, chain, clock))
    && FaultsHandled(outcome, trace)
    && SignsAnchor(key, digest, chain, trace)
    && SendsSigned(key, chain, trace)
    && |trace| <= 11
    && (|trace| > 7 ==>
          && Reachable(url, key, chain)
          && Broadcasts(chain.fromKey(key).value, AnchorTx(chain.fromKey(key).value.address, digest, chain),
                        Hex(digest), chain, clock, trace[7..]))
    && (outcome.Anchored? ==> |trace| == 11 && ReportsSuccess(url, key, digest, chain, clock, scanUrl, evidence, outcome, trace[8..]))
  }

  /**
   * Everything `execute` promises about a run on `evidence`: the
   * configuration checks come first, in this order, and call nothing;
   * afterwards the node at the first configured URL is used, with the vault
   * key if there is one, to anchor the digest of the canonical record.
   */
  predicate Executed(evidence: Json, env: Env, vault: VaultReply, sha256: seq<Byte> -> Digest, chain: Chain, clock: Clock,
                     outcome: Outcome, trace: seq<Effect>)
  {
    && (outcome.MissingRpcUrl? <==> forall n :: n in RpcUrlNames ==> Setting(env, n).None?)
    && (outcome.MissingPrivateKey? <==>
          FirstSetting(env, RpcUrlNames).Some? && !VaultHasKey(vault) && Setting(env, "PRIVATE_KEY").None?)
    && (outcome.MissingRpcUrl? || outcome.MissingPrivateKey? <==> trace == [])
    && (trace != [] ==>
          && FirstSetting(env, RpcUrlNames).Some? && PrivateKey(env, vault).Some?
          && Submitted(FirstSetting(env, RpcUrlNames).value, PrivateKey(env, vault).value,
                       sha256(HashInput(evidence)), chain, clock, Setting(env, "SCAN_URL"), evidence, outcome, trace))
  }

  /** A run that anchors reports the record it was given and that record's evidence hash. */
  lemma AnchoredRecord(evidence: Json, env: Env, vault: VaultReply, sha256: seq<Byte> -> Digest, chain: Chain,
                       clock: Clock, outcome: Outcome, trace: seq<Effect>)
    requires Executed(evidence, env, vault, sha256, chain, clock, outcome, trace) && outcome.Anchored?
    ensures outcome.evidence == evidence && outcome.evidenceHash == EvidenceHash(sha256, evidence)
  {
  }

  /**
   * `EvidenceStorageTool.execute`: hash the record, resolve the endpoint and
   * the key, then talk to the node. Every path ends in an outcome; `trace`
   * lists the calls made into the libraries and the node.
   */
  method Execute(evidence: Json, env: Env, vault: VaultReply, sha256: seq<Byte> -> Digest, chain: Chain, clock: Clock)
    returns (outcome: Outcome, trace: seq<Effect>)
    ensures Executed(evidence, env, vault, sha256, chain, clock, outcome, trace)
  {
    var digest := sha256(HashInput(evidence));
    var evidenceHash := Hex(digest);
    FromHexOfHex(digest);
    var payload := TagBytes + FromHex(evidenceHash).value;
    var dataHex := "0x" + Hex(payload);
    assert dataHex == DataHex(digest);

    var rpcUrl := FirstSetting(env, RpcUrlNames);
    var _ := FirstSettingChoice(env, RpcUrlNames);
    if rpcUrl.None? {
      return MissingRpcUrl, [];
    }

    var privateKey := Setting(env, "PRIVATE_KEY");
    if vault.VaultHolds? && vault.secret != "" {
      privateKey := Some(vault.secret);
    }
    assert privateKey == PrivateKey(env, vault);
    if privateKey.None? {
      return MissingPrivateKey, [];
    }

    outcome, trace := Submit(rpcUrl.value, privateKey.value, digest, evidenceHash, dataHex, evidence, chain, clock, Setting(env, "SCAN_URL"));
  }

  /** The signing account and the transaction built for it. */
  datatype Prepared = Prepared(account: Account, tx: Tx)

  /** No transaction is signed or sent among these calls. */
  predicate NothingSigned(trace: seq<Effect>) {
    forall i :: 0 <= i < |trace| ==> !trace[i].call.SignTransaction? && !trace[i].call.SendRawTransaction?
  }

  /** The chain phase of `execute`, from the library imports to the result dict. */
  method Submit(url: string, key: string, digest: Digest, evidenceHash: string, dataHex: string,
                evidence: Json, chain: Chain, clock: Clock, scanUrl: Option<string>)
    returns (outcome: Outcome, trace: seq<Effect>)
    requires evidenceHash == Hex(digest) && dataHex == DataHex(digest)
    ensures Submitted(url, key, digest, chain, clock, scanUrl, evidence, outcome, trace)
  {
    var stopped, ready, opening := Prepare(url, key, digest, dataHex, chain);
    if stopped.Some? {
      assert !Accepts(url, key, digest, chain, clock);
      return stopped.value, opening;
    }
    var rest;
    outcome, rest := Broadcast(url, key, digest, evidenceHash, dataHex, ready.value, evidence, chain, clock, scanUrl);
    trace := opening + rest;
    JoinRun(url, key, digest, chain, clock, scanUrl, evidence, ready.value, opening, rest, outcome);
  }

  /** A prepared opening followed by a broadcast makes a whole run. */
  lemma JoinRun(url: string, key: string, digest: Digest, chain: Chain, clock: Clock, scanUrl: Option<string>,
                evidence: Json, ready: Prepared, opening: seq<Effect>, rest: seq<Effect>, outcome: Outcome)
    requires Opens(url, key, digest, chain, opening) && Answered(key, chain, opening) && NothingSigned(opening)
    requires Reachable(url, key, chain) && chain.fromKey(key) == Ok(ready.account)
    requires AnchorsDigest(ready.tx, ready.account.address, digest, chain)
    requires |opening| == 7 && (forall i :: 0 <= i < 6 ==> opening[i].raised.None?)
    requires opening[6].call == EstimateGas(ready.account.address, ready.account.address, 0, DataHex(digest))
    requires Broadcasts(ready.account, ready.tx, Hex(digest), chain, clock, rest) && Answered(key, chain, rest)
    requires !outcome.MissingRpcUrl? && !outcome.MissingPrivateKey? && !outcome.RpcUnreachable?
    requires FaultsHandled(outcome, rest)
    requires outcome.Anchored? <==>
               && ready.account.signTransaction(ready.tx).Ok?
               && chain.sendRawTransaction(ready.account.signTransaction(ready.tx).value).Ok?
               && ready.account.signMessage(Attestation(Hex(digest), clock.attestedAt)).Ok?
    requires outcome.Anchored? ==>
               |rest| == 4 && ReportsSuccess(url, key, digest, chain, clock, scanUrl, evidence, outcome, rest[1..])
    ensures Submitted(url, key, digest, chain, clock, scanUrl, evidence, outcome, opening + rest)
  {
    var trace := opening + rest;
    ReadyAccepts(url, key, digest, chain, clock, ready);
    JoinOpening(url, key, digest, chain, opening, rest);
    AnsweredJoin(key, chain, opening, rest);
    forall i | 0 <= i < |opening| ensures opening[i].raised.None? || Swallowed(opening[i].call) {
      if i == 6 {
        assert opening[i].call.EstimateGas?;
      }
    }
    JoinFaults(opening, rest, outcome);
    JoinSigning(opening, rest, key, digest, chain, ready);
    JoinSending(opening, rest, key, chain, ready);
    assert outcome.Anchored? ==> |trace| == 11 && trace[8..] == rest[1..];
    assert outcome.Anchored? <==> Accepts(url, key, digest, chain, clock);
    assert trace[7..] == rest;
  }

  /** Once the transaction is ready, the run is accepted exactly when signing, sending and attesting succeed. */
  lemma ReadyAccepts(url: string, key: string, digest: Digest, chain: Chain, clock: Clock, ready: Prepared)
    requires Reachable(url, key, chain) && chain.fromKey(key) == Ok(ready.account)
    requires AnchorsDigest(ready.tx, ready.account.address, digest, chain)
    ensures Accepts(url, key, digest, chain, clock) <==>
              && ready.account.signTransaction(ready.tx).Ok?
              && chain.sendRawTransaction(ready.account.signTransaction(ready.tx).value).Ok?
              && ready.account.signMessage(Attestation(Hex(digest), clock.attestedAt)).Ok?
  {
  }

  /** The opening calls stay at the front of the whole trace, and the last three effects are those of the broadcast. */
  lemma JoinOpening(url: string, key: string, digest: Digest, chain: Chain, opening: seq<Effect>, rest: seq<Effect>)
    requires |opening| == 7 && Opens(url, key, digest, chain, opening) && 1 <= |rest| <= 4
    ensures Opens(url, key, digest, chain, opening + rest)
    ensures |rest| == 4 ==> (opening + rest)[8..] == rest[1..]
  {
    var trace := opening + rest;
    assert forall i :: 0 <= i < 7 ==> trace[i] == opening[i];
  }

  /** In the joined trace the one signed transaction is the prepared one, right after its gas estimate. */
  lemma JoinSigning(opening: seq<Effect>, rest: seq<Effect>, key: string, digest: Digest, chain: Chain, ready: Prepared)
    requires |opening| == 7 && NothingSigned(opening)
    requires opening[6].call == EstimateGas(ready.account.address, ready.account.address, 0, DataHex(digest))
    requires chain.fromKey(key) == Ok(ready.account) && AnchorsDigest(ready.tx, ready.account.address, digest, chain)
    requires 1 <= |rest| <= 4 && rest[0].call == SignTransaction(ready.tx)
    requires |rest| > 1 ==> rest[1].call.SendRawTransaction?
    requires |rest| > 2 ==> rest[2].call.WaitForReceipt?
    requires |rest| > 3 ==> rest[3].call.SignMessage?
    ensures SignsAnchor(key, digest, chain, opening + rest)
  {
    var trace := opening + rest;
    assert forall i :: 0 <= i < 7 ==> trace[i] == opening[i];
    assert forall i :: 7 <= i < |trace| ==> trace[i] == rest[i - 7];
  }

  /** In the joined trace what is sent is what was signed just before. */
  lemma JoinSending(opening: seq<Effect>, rest: seq<Effect>, key: string, chain: Chain, ready: Prepared)
    requires |opening| == 7 && NothingSigned(opening)
    requires chain.fromKey(key) == Ok(ready.account)
    requires 1 <= |rest| <= 4 && rest[0].call == SignTransaction(ready.tx)
    requires |rest| > 1 ==>
               && rest[1].call.SendRawTransaction? && rest[0].raised.None?
               && Ok(rest[1].call.raw) == ready.account.signTransaction(ready.tx)
    requires |rest| > 2 ==> rest[2].call.WaitForReceipt?
    requires |rest| > 3 ==> rest[3].call.SignMessage?
    ensures SendsSigned(key, chain, opening + rest)
  {
    var trace := opening + rest;
    assert forall i :: 0 <= i < 7 ==> trace[i] == opening[i];
    assert forall i :: 7 <= i < |trace| ==> trace[i] == rest[i - 7];
  }

  /** The libraries load, the node is up, the key gives an account and the node answers the three queries. */
  predicate Reachable(url: string, key: string, chain: Chain) {
    && chain.imports.None? && chain.isConnected(url) == Ok(true) && chain.fromKey(key).Ok?
    && chain.transactionCount(chain.fromKey(key).value.address).Ok? && chain.chainId.Ok? && chain.gasPrice.Ok?
  }

  /** Nothing among these calls raised. */
  predicate NoFaults(trace: seq<Effect>) {
    forall i :: 0 <= i < |trace| ==> trace[i].raised.None?
  }

  /** Loading the libraries, checking the node and deriving the account from the key. */
  method Connect(url: string, key: string, chain: Chain)
    returns (stopped: Option<Outcome>, account: Option<Account>, trace: seq<Effect>)
    ensures stopped.Some? != account.Some?
    ensures 1 <= |trace| <= 3 && Answered(key, chain, trace) && NothingSigned(trace) && trace[0].call == ImportLibraries
    ensures |trace| > 1 ==> trace[1].call == IsConnected(url)
    ensures |trace| > 2 ==> trace[2].call == FromKey(key)
    ensures account.Some? <==> chain.imports.None? && chain.isConnected(url) == Ok(true) && chain.fromKey(key).Ok?
    ensures account.Some? ==> chain.fromKey(key) == Ok(account.value) && |trace| == 3 && NoFaults(trace)
    ensures stopped.Some? ==>
              var outcome := stopped.value;
              && (outcome.RpcUnreachable? || outcome.MissingDependencies? || outcome.OnchainFailed?)
              && (outcome.RpcUnreachable? <==> chain.imports.None? && chain.isConnected(url) == Ok(false))
              && (outcome.RpcUnreachable? ==> outcome.rpcUrl == url && |trace| == 2)
              && FaultsHandled(outcome, trace)
  {
    trace := [Effect(ImportLibraries, chain.imports)];
    if chain.imports.Some? {
      return Some(Classify(chain.imports.value)), None, trace;
    }
    var connected := chain.isConnected(url);
    AnsweredAppend(key, chain, trace, IsConnected(url));
    trace := trace + [Effect(IsConnected(url), connected.Failure())];
    if connected.Raised? {
      return Some(Classify(connected.fault)), None, trace;
    }
    if !connected.value {
      return Some(RpcUnreachable(url)), None, trace;
    }
    var derived := chain.fromKey(key);
    AnsweredAppend(key, chain, trace, FromKey(key));
    trace := trace + [Effect(FromKey(key), derived.Failure())];
    if derived.Raised? {
      return Some(Classify(derived.fault)), None, trace;
    }
    stopped, account := None, Some(derived.value);
  }

  /** Reading the nonce, chain id and gas price for the account, then estimating the gas of the anchoring calldata. */
  method ReadNode(key: string, digest: Digest, dataHex: string, chain: Chain, account: Account)
    returns (stopped: Option<Outcome>, tx: Option<Tx>, trace: seq<Effect>)
    requires dataHex == DataHex(digest) && chain.fromKey(key) == Ok(account)
    ensures stopped.Some? != tx.Some?
    ensures 1 <= |trace| <= 4 && Answered(key, chain, trace) && NothingSigned(trace)
    ensures trace[0].call == GetTransactionCount(account.address)
    ensures |trace| > 1 ==> trace[1].call == GetChainId
    ensures |trace| > 2 ==> trace[2].call == GetGasPrice
    ensures |trace| > 3 ==> trace[3].call == EstimateGas(account.address, account.address, 0, dataHex)
    ensures tx.Some? <==> chain.transactionCount(account.address).Ok? && chain.chainId.Ok? && chain.gasPrice.Ok?
    ensures tx.Some? ==>
              && AnchorsDigest(tx.value, account.address, digest, chain)
              && |trace| == 4 && NoFaults(trace[..3])
    ensures stopped.Some? ==>
              (stopped.value.MissingDependencies? || stopped.value.OnchainFailed?) && FaultsHandled(stopped.value, trace)
  {
    var from := account.address;
    var nonce := chain.transactionCount(from);
    trace := [Effect(GetTransactionCount(from), nonce.Failure())];
    if nonce.Raised? {
      return Some(Classify(nonce.fault)), None, trace;
    }
    var chainId := chain.chainId;
    AnsweredAppend(key, chain, trace, GetChainId);
    trace := trace + [Effect(GetChainId, chainId.Failure())];
    if chainId.Raised? {
      return Some(Classify(chainId.fault)), None, trace;
    }
    var gasPrice := chain.gasPrice;
    AnsweredAppend(key, chain, trace, GetGasPrice);
    trace := trace + [Effect(GetGasPrice, gasPrice.Failure())];
    if gasPrice.Raised? {
      return Some(Classify(gasPrice.fault)), None, trace;
    }

    var estimate := chain.estimateGas(from, dataHex);
    AnsweredAppend(key, chain, trace, EstimateGas(from, from, 0, dataHex));
    trace := trace + [Effect(EstimateGas(from, from, 0, dataHex), estimate.Failure())];
    var gas := 80000;
    if estimate.Ok? {
      gas := 2 * estimate.value;
    }
    stopped, tx := None, Some(Tx(chainId.value, nonce.value, from, 0, dataHex, gas, gasPrice.value));
  }

  /** The account's queries follow the three connecting calls, so the joined calls are the opening of a run. */
  lemma JoinReads(url: string, key: string, digest: Digest, chain: Chain, connecting: seq<Effect>, queries: seq<Effect>)
    requires |connecting| == 3 && chain.fromKey(key).Ok?
    requires connecting[0].call == ImportLibraries && connecting[1].call == IsConnected(url) && connecting[2].call == FromKey(key)
    requires var address := chain.fromKey(key).value.address;
             && 1 <= |queries| <= 4 && queries[0].call == GetTransactionCount(address)
             && (|queries| > 1 ==> queries[1].call == GetChainId)
             && (|queries| > 2 ==> queries[2].call == GetGasPrice)
             && (|queries| > 3 ==> queries[3].call == EstimateGas(address, address, 0, DataHex(digest)))
    ensures Opens(url, key, digest, chain, connecting + queries)
    ensures forall i :: 0 <= i < |queries| ==> (connecting + queries)[3 + i] == queries[i]
  {
    var trace := connecting + queries;
    assert forall i :: 0 <= i < 3 ==> trace[i] == connecting[i];
    assert forall i :: 0 <= i < |queries| ==> trace[3 + i] == queries[i];
  }

  /** Calls that raised nothing, or only what is swallowed, keep the fault handling of what follows them. */
  lemma JoinFaults(before: seq<Effect>, after: seq<Effect>, outcome: Outcome)
    requires forall i :: 0 <= i < |before| ==> before[i].raised.None? || Swallowed(before[i].call)
    requires after != [] && FaultsHandled(outcome, after)
    ensures FaultsHandled(outcome, before + after)
  {
    var trace := before + after;
    assert trace[|trace| - 1] == after[|after| - 1];
    forall i | 0 <= i < |trace| - 1 && trace[i].raised.Some? ensures Swallowed(trace[i].call) {
      if i >= |before| {
        assert trace[i] == after[i - |before|];
      } else {
        assert trace[i] == before[i];
      }
    }
  }

  /** Nothing is signed in a join of calls that sign nothing. */
  lemma NothingSignedJoin(a: seq<Effect>, b: seq<Effect>)
    requires NothingSigned(a) && NothingSigned(b)
    ensures NothingSigned(a + b)
  {
    var t := a + b;
    assert forall i :: 0 <= i < |a| ==> t[i] == a[i];
    assert forall i :: |a| <= i < |t| ==> t[i] == b[i - |a|];
  }

  /**
   * Loading the libraries, checking the node, deriving the account and
   * reading the nonce, chain id and gas price, then choosing the gas. Either
   * the run stops here with an outcome, or the anchoring transaction is ready.
   */
  method Prepare(url: string, key: string, digest: Digest, dataHex: string, chain: Chain)
    returns (stopped: Option<Outcome>, ready: Option<Prepared>, trace: seq<Effect>)
    requires dataHex == DataHex(digest)
    ensures stopped.Some? != ready.Some?
    ensures |trace| <= 7 && Opens(url, key, digest, chain, trace) && Answered(key, chain, trace) && NothingSigned(trace)
    ensures ready.Some? <==> Reachable(url, key, chain)
    ensures stopped.Some? ==>
              var outcome := stopped.value;
              && !outcome.Anchored? && !outcome.MissingRpcUrl? && !outcome.MissingPrivateKey?
              && (outcome.RpcUnreachable? <==> chain.imports.None? && chain.isConnected(url) == Ok(false))
              && (outcome.RpcUnreachable? ==> outcome.rpcUrl == url && |trace| == 2)
              && FaultsHandled(outcome, trace)
    ensures ready.Some? ==>
              var account, tx := ready.value.account, ready.value.tx;
              && chain.fromKey(key) == Ok(account)
              && AnchorsDigest(tx, account.address, digest, chain)
              && |trace| == 7
              && (forall i :: 0 <= i < 6 ==> trace[i].raised.None?)
              && trace[6].call == EstimateGas(account.address, account.address, 0, dataHex)
  {
    var halted, account, connecting := Connect(url, key, chain);
    if halted.Some? {
      return halted, None, connecting;
    }
    var cut, tx, queries := ReadNode(key, digest, dataHex, chain, account.value);
    trace := connecting + queries;
    JoinReads(url, key, digest, chain, connecting, queries);
    AnsweredJoin(key, chain, connecting, queries);
    NothingSignedJoin(connecting, queries);
    if cut.Some? {
      JoinFaults(connecting, queries, cut.value);
      return cut, None, trace;
    }
    ready, stopped := Some(Prepared(account.value, tx.value)), None;
  }

  /** Signing the prepared transaction and sending it to the node. */
  method Send(key: string, chain: Chain, ready: Prepared)
    returns (stopped: Option<Outcome>, sent: Option<seq<Byte>>, trace: seq<Effect>)
    requires chain.fromKey(key) == Ok(ready.account)
    ensures stopped.Some? != sent.Some?
    ensures 1 <= |trace| <= 2 && Answered(key, chain, trace)
    ensures trace[0].call == SignTransaction(ready.tx)
    ensures |trace| > 1 ==>
              && trace[1].call.SendRawTransaction? && trace[0].raised.None?
              && Ok(trace[1].call.raw) == ready.account.signTransaction(ready.tx)
    ensures sent.Some? <==>
              ready.account.signTransaction(ready.tx).Ok? &&
              chain.sendRawTransaction(ready.account.signTransaction(ready.tx).value).Ok?
    ensures sent.Some? ==>
              |trace| == 2 && trace[1].raised.None? && chain.sendRawTransaction(trace[1].call.raw) == Ok(sent.value)
    ensures stopped.Some? ==>
              (stopped.value.MissingDependencies? || stopped.value.OnchainFailed?) && FaultsHandled(stopped.value, trace)
  {
    var signed := ready.account.signTransaction(ready.tx);
    trace := [Effect(SignTransaction(ready.tx), signed.Failure())];
    if signed.Raised? {
      return Some(Classify(signed.fault)), None, trace;
    }
    var accepted := chain.sendRawTransaction(signed.value);
    AnsweredAppend(key, chain, trace, SendRawTransaction(signed.value));
    trace := trace + [Effect(SendRawTransaction(signed.value), accepted.Failure())];
    if accepted.Raised? {
      return Some(Classify(accepted.fault)), None, trace;
    }
    stopped, sent := None, Some(accepted.value);
  }

  /**
   * Waiting for the receipt of the sent transaction, signing the attestation
   * of the evidence hash and reporting the anchor.
   */
  method Attest(url: string, key: string, evidenceHash: string, dataHex: string, account: Account, chainId: int,
                txBytes: seq<Byte>, evidence: Json, chain: Chain, clock: Clock, scanUrl: Option<string>)
    returns (outcome: Outcome, trace: seq<Effect>)
    requires chain.fromKey(key) == Ok(account)
    ensures |trace| == 2 && Answered(key, chain, trace)
    ensures trace[0].call == WaitForReceipt(txBytes)
    ensures trace[1].call == SignMessage(Attestation(evidenceHash, clock.attestedAt))
    ensures FaultsHandled(outcome, trace)
    ensures outcome.Anchored? <==> account.signMessage(Attestation(evidenceHash, clock.attestedAt)).Ok?
    ensures !outcome.Anchored? ==> outcome.MissingDependencies? || outcome.OnchainFailed?
    ensures outcome.Anchored? ==>
              && outcome.chainId == chainId && outcome.rpcUrl == url && outcome.from == account.address
              && outcome.txHash == Hex(txBytes)
              && outcome.receiptStatus == (var r := chain.waitForReceipt(txBytes); if r.Ok? then Some(r.value) else None)
              && outcome.evidenceHash == evidenceHash && outcome.dataHex == dataHex
              && outcome.signature == Hex(account.signMessage(Attestation(evidenceHash, clock.attestedAt)).value)
              && outcome.timestamp == clock.reportedAt && outcome.evidence == evidence
              && outcome.explorer == ExplorerUrl(scanUrl, Hex(txBytes))
  {
    var txHash := Hex(txBytes);
    var receipt := chain.waitForReceipt(txBytes);
    trace := [Effect(WaitForReceipt(txBytes), receipt.Failure())];
    var receiptStatus: Option<int> := None;
    if receipt.Ok? {
      receiptStatus := Some(receipt.value);
    }

    var statement := Attestation(evidenceHash, clock.attestedAt);
    var signature := account.signMessage(statement);
    AnsweredAppend(key, chain, trace, SignMessage(statement));
    trace := trace + [Effect(SignMessage(statement), signature.Failure())];
    if signature.Raised? {
      return Classify(signature.fault), trace;
    }

    var explorer := ExplorerUrl(scanUrl, txHash);
    outcome := Anchored(
      chainId, url, account.address, txHash, receiptStatus, evidenceHash, dataHex,
      Hex(signature.value), clock.reportedAt, evidence, explorer);
  }

  /**
   * Signing and broadcasting the prepared transaction, waiting for its
   * receipt and signing the attestation; a success reports all of it.
   */
  method Broadcast(url: string, key: string, digest: Digest, evidenceHash: string, dataHex: string,
                   ready: Prepared, evidence: Json, chain: Chain, clock: Clock, scanUrl: Option<string>)
    returns (outcome: Outcome, trace: seq<Effect>)
    requires evidenceHash == Hex(digest) && dataHex == DataHex(digest)
    requires chain.fromKey(key) == Ok(ready.account) && chain.chainId == Ok(ready.tx.chainId)
    ensures Broadcasts(ready.account, ready.tx, evidenceHash, chain, clock, trace) && Answered(key, chain, trace)
    ensures !outcome.MissingRpcUrl? && !outcome.MissingPrivateKey? && !outcome.RpcUnreachable?
    ensures FaultsHandled(outcome, trace)
    ensures outcome.Anchored? <==>
              && ready.account.signTransaction(ready.tx).Ok?
              && chain.sendRawTransaction(ready.account.signTransaction(ready.tx).value).Ok?
              && ready.account.signMessage(Attestation(evidenceHash, clock.attestedAt)).Ok?
    ensures outcome.Anchored? ==>
              |trace| == 4 && ReportsSuccess(url, key, digest, chain, clock, scanUrl, evidence, outcome, trace[1..])
  {
    var stopped, sent, sending := Send(key, chain, ready);
    if stopped.Some? {
      return stopped.value, sending;
    }
    var attesting;
    outcome, attesting := Attest(url, key, evidenceHash, dataHex, ready.account, ready.tx.chainId, sent.value,
                                 evidence, chain, clock, scanUrl);
    trace := sending + attesting;
    AnsweredJoin(key, chain, sending, attesting);
    JoinFaults(sending, attesting, outcome);
    assert trace[..2] == sending && trace[2..] == attesting;
  }
}
