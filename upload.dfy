/**
 * The user evidence upload tool: it checks an uploaded piece of evidence,
 * optionally appends the text of a file, builds the evidence record (content,
 * type, source, timestamp, uploader, merged metadata and file information),
 * hands the record to the evidence storage tool and wraps what that tool
 * reports. The file system and the clock reading are inputs.
 */
module Upload {
  import opened Wrappers
  import opened Bytes
  import opened Text
  import opened Json
  import Anchor

  /** The evidence types the tool accepts. */
  const EvidenceTypes: seq<string> := ["message", "document", "image", "audio", "video", "binary", "other"]

  /** The arguments of `execute`; `sign_with` is accepted but plays no part in anchoring. */
  datatype Request = Request(
    content: string, evidenceType: string, source: string, signWith: string,
    description: string, uploaderAddress: string, fileName: string,
    filePath: Option<string>, metadata: Option<Json>)

  /**
   * What the file system says about `file_path`: it does not exist, or it
   * does, together with what reading it as UTF-8 text gave (None when that
   * raised) and what asking its size gave.
   */
  datatype FileProbe = Missing | Present(text: Option<string>, size: Anchor.Reply<nat>)

  /** `if file_path:` */
  predicate HasPath(req: Request) {
    req.filePath.Some? && req.filePath.value != ""
  }

  /** Asking the size of an existing file raised: the one exception the tool itself can meet. */
  predicate SizeFails(req: Request, probe: FileProbe) {
    HasPath(req) && probe.Present? && probe.size.Raised?
  }

  // ------------------------------------------------------------ input checks

  datatype Rejection = EmptyContent | UnsupportedType(evidenceType: string)

  /** The input checks, in order: blank content first, then an unknown type. */
  function Validate(req: Request): (r: Option<Rejection>)
    ensures r == Some(EmptyContent) <==> forall i :: 0 <= i < |req.content| ==> IsSpace(req.content[i])
    ensures r.Some? && r.value.UnsupportedType? <==> !IsBlank(req.content) && req.evidenceType !in EvidenceTypes
    ensures r.Some? && r.value.UnsupportedType? ==> r.value.evidenceType == req.evidenceType
  {
    BlankIffAllSpace(req.content);
    if IsBlank(req.content) then Some(EmptyContent)
    else if req.evidenceType !in EvidenceTypes then Some(UnsupportedType(req.evidenceType))
    else None
  }

  function RejectionCode(r: Rejection): string {
    if r.EmptyContent? then "empty_content" else "unsupported_type"
  }

  function RejectionJson(r: Rejection): Json {
    Dict(["status", "error", "message"],
         [Str("error"), Str(RejectionCode(r)),
          Str(if r.EmptyContent? then "证据内容不能为空" else "不支持的证据类型: " + r.evidenceType)])
  }

  /** The `except Exception` result. */
  function ExceptionJson(text: string): Json {
    Dict(["status", "error", "message"], [Str("error"), Str("exception"), Str("处理失败: " + text)])
  }

  /** A rejection or an exception is reported as an error with its own code and message. */
  lemma ErrorJsonFields(r: Rejection, text: string)
    ensures Get(RejectionJson(r), "status") == Some(Str("error"))
    ensures Get(RejectionJson(r), "error") == Some(Str(if r.EmptyContent? then "empty_content" else "unsupported_type"))
    ensures Get(RejectionJson(r), "message") ==
              Some(Str(if r.EmptyContent? then "证据内容不能为空" else "不支持的证据类型: " + r.evidenceType))
    ensures Get(ExceptionJson(text), "status") == Some(Str("error"))
    ensures Get(ExceptionJson(text), "error") == Some(Str("exception"))
    ensures Get(ExceptionJson(text), "message") == Some(Str("处理失败: " + text))
  {
    var fs, gs := RejectionJson(r).fields, ExceptionJson(text).fields;
    DistinctLookup(fs);
    DistinctLookup(gs);
    assert fs[0].key == "status" && fs[1].key == "error" && fs[2].key == "message";
    assert gs[0].key == "status" && gs[1].key == "error" && gs[2].key == "message";
  }

  // ------------------------------------------------------------ the record

  const FileHeading: string := "\n\n文件内容:\n"

  /** The evidence text: the file's text is appended when the file exists and could be read, else it is left as it is. */
  function EvidenceText(req: Request, probe: FileProbe): string {
    if HasPath(req) && probe.Present? && probe.text.Some? then req.content + FileHeading + probe.text.value
    else req.content
  }

  lemma EvidenceTextExtends(req: Request, probe: FileProbe)
    ensures req.content <= EvidenceText(req, probe)
    ensures EvidenceText(req, probe) == req.content <==> !(HasPath(req) && probe.Present? && probe.text.Some?)
    ensures HasPath(req) && probe.Present? && probe.text.Some? ==>
              EvidenceText(req, probe)[|req.content|..] == FileHeading + probe.text.value
  {
    var t := EvidenceText(req, probe);
    if HasPath(req) && probe.Present? && probe.text.Some? {
      assert t[|req.content|..] == FileHeading + probe.text.value;
      assert |t| > |req.content|;
    }
  }

  /** `merged.update(metadata)` on an empty dict when `metadata` is a dict, nothing otherwise. */
  function BaseMetadata(metadata: Option<Json>): (r: seq<Field>)
    ensures DistinctKeys(r)
    ensures metadata.Some? && metadata.value.Obj? ==> KeySet(r) == KeySet(metadata.value.fields)
    ensures metadata.Some? && metadata.value.Obj? && DistinctKeys(metadata.value.fields) ==> r == metadata.value.fields
    ensures !(metadata.Some? && metadata.value.Obj?) ==> r == []
  {
    if metadata.Some? && metadata.value.Obj? then
      UpdateKeys([], metadata.value.fields);
      if DistinctKeys(metadata.value.fields) then UpdateOfEmpty(metadata.value.fields); Update([], metadata.value.fields)
      else Update([], metadata.value.fields)
    else []
  }

  /** `d[k] = v` done only when `v` is a non-empty string. */
  function PutGiven(fs: seq<Field>, k: string, v: string): (r: seq<Field>)
    ensures DistinctKeys(fs) ==> DistinctKeys(r)
    ensures KeySet(r) == KeySet(fs) + (if v != "" then {k} else {})
    ensures forall k' :: Lookup(r, k') == if k' == k && v != "" then Some(Str(v)) else Lookup(fs, k')
  {
    if v != "" then Put(fs, k, Str(v)) else fs
  }

  /** The value the merged metadata holds under `k`: the given argument for the three named keys when non-empty, the caller's otherwise. */
  function MetadataEntry(req: Request, k: string): Option<Json> {
    if k == "description" && req.description != "" then Some(Str(req.description))
    else if k == "uploader_address" && req.uploaderAddress != "" then Some(Str(req.uploaderAddress))
    else if k == "file_name" && req.fileName != "" then Some(Str(req.fileName))
    else Lookup(BaseMetadata(req.metadata), k)
  }

  /** The record's metadata: the caller's dict, then `description`, `uploader_address` and `file_name`, each set only when given. */
  function MergeMetadata(req: Request): seq<Field> {
    var m1 := PutGiven(BaseMetadata(req.metadata), "description", req.description);
    var m2 := PutGiven(m1, "uploader_address", req.uploaderAddress);
    PutGiven(m2, "file_name", req.fileName)
  }

  /**
   * The merged metadata is a dict whose keys are the caller's plus those of
   * the three arguments that were given, each holding its argument; nothing
   * else is added or changed.
   */
  lemma MergeMetadataView(req: Request)
    ensures DistinctKeys(MergeMetadata(req))
    ensures KeySet(MergeMetadata(req)) == KeySet(BaseMetadata(req.metadata))
                         + (if req.description != "" then {"description"} else {})
                         + (if req.uploaderAddress != "" then {"uploader_address"} else {})
                         + (if req.fileName != "" then {"file_name"} else {})
    ensures forall k :: Lookup(MergeMetadata(req), k) == MetadataEntry(req, k)
  {
  }

  /** The `file_info` dict: the path, whether it exists, and its size (0 when missing). */
  function FileInfoJson(path: string, probe: FileProbe): Json
    requires !(probe.Present? && probe.size.Raised?)
  {
    Dict(["path", "exists", "size"], [Str(path), Bool(probe.Present?), Int(if probe.Present? then probe.size.value else 0)])
  }

  const RecordKeys: seq<string> := ["content", "type", "source", "timestamp", "uploader", "metadata"]

  lemma RecordKeysDistinct()
    ensures forall i, j :: 0 <= i < j < |RecordKeys| ==> RecordKeys[i] != RecordKeys[j]
    ensures "file_info" !in RecordKeys
  {
  }

  /** `uploader_address or "user"`. */
  function Uploader(req: Request): string {
    if req.uploaderAddress != "" then req.uploaderAddress else "user"
  }

  /** The `evidence_data` dict literal, before `file_info`. */
  function RecordDict(content: string, evidenceType: string, source: string, timestamp: string,
                      uploader: string, metadata: seq<Field>): Json {
    Dict(RecordKeys, [Str(content), Str(evidenceType), Str(source), Str(timestamp), Str(uploader), Obj(metadata)])
  }

  /** `evidence_data`, with `file_info` added when a file path was given. */
  function Record(req: Request, probe: FileProbe, recordedAt: string): Json
    requires !SizeFails(req, probe)
  {
    var base := RecordDict(Strip(EvidenceText(req, probe)), req.evidenceType, req.source, recordedAt,
                           Uploader(req), MergeMetadata(req));
    if HasPath(req) then Obj(Put(base.fields, "file_info", FileInfoJson(req.filePath.value, probe))) else base
  }

  /** The record dict literal has distinct keys, no `file_info`, and each key holds its own value. */
  lemma RecordDictFields(content: string, evidenceType: string, source: string, timestamp: string,
                         uploader: string, metadata: seq<Field>)
    ensures var r := RecordDict(content, evidenceType, source, timestamp, uploader, metadata);
            && r.Obj? && DistinctKeys(r.fields) && "file_info" !in KeySet(r.fields)
            && Lookup(r.fields, "content") == Some(Str(content))
            && Lookup(r.fields, "type") == Some(Str(evidenceType))
            && Lookup(r.fields, "source") == Some(Str(source))
            && Lookup(r.fields, "timestamp") == Some(Str(timestamp))
            && Lookup(r.fields, "uploader") == Some(Str(uploader))
            && Lookup(r.fields, "metadata") == Some(Obj(metadata))
  {
    var fs := RecordDict(content, evidenceType, source, timestamp, uploader, metadata).fields;
    RecordKeysDistinct();
    DistinctLookup(fs);
    LookupMissing(fs, "file_info");
    assert RecordKeys[0] == "content" && RecordKeys[1] == "type" && RecordKeys[2] == "source";
    assert RecordKeys[3] == "timestamp" && RecordKeys[4] == "uploader" && RecordKeys[5] == "metadata";
  }

  /**
   * The record is a dict holding the stripped evidence text, the type, the
   * source, the timestamp, the uploader (`user` when no address was given)
   * and the merged metadata; it has `file_info` exactly when a path was given.
   */
  lemma RecordFields(req: Request, probe: FileProbe, recordedAt: string)
    requires !SizeFails(req, probe)
    ensures Record(req, probe, recordedAt).Obj? && DistinctKeys(Record(req, probe, recordedAt).fields)
    ensures "file_info" in KeySet(Record(req, probe, recordedAt).fields) <==> HasPath(req)
    ensures Get(Record(req, probe, recordedAt), "content") == Some(Str(Strip(EvidenceText(req, probe))))
    ensures Get(Record(req, probe, recordedAt), "type") == Some(Str(req.evidenceType))
    ensures Get(Record(req, probe, recordedAt), "source") == Some(Str(req.source))
    ensures Get(Record(req, probe, recordedAt), "timestamp") == Some(Str(recordedAt))
    ensures Get(Record(req, probe, recordedAt), "uploader") ==
              Some(Str(if req.uploaderAddress != "" then req.uploaderAddress else "user"))
    ensures Get(Record(req, probe, recordedAt), "metadata") == Some(Obj(MergeMetadata(req)))
    ensures HasPath(req) ==>
              Get(Record(req, probe, recordedAt), "file_info") == Some(FileInfoJson(req.filePath.value, probe))
  {
    RecordDictFields(Strip(EvidenceText(req, probe)), req.evidenceType, req.source, recordedAt,
                     Uploader(req), MergeMetadata(req));
  }

  // ------------------------------------------------------------ the reply

  /** What `json.loads` of the storage tool's result gives, or the `{"raw": ...}` fallback. */
  function Onchain(out: ToolOutput): Json {
    match out
    case JsonText(v) => v
    case NotJson(text) => Dict(["raw"], [Str(text)])
    case NotText(repr) => Dict(["raw"], [Str(repr)])
  }

  /** `isinstance(onchain, dict) and onchain.get("status") == "error"`. */
  predicate InnerFailed(onchain: Json) {
    Get(onchain, "status") == Some(Str("error"))
  }

  /** Output that cannot be parsed is kept under `raw` and is not an inner failure. */
  lemma UnparsedKeptRaw(out: ToolOutput)
    requires !out.JsonText?
    ensures Get(Onchain(out), "raw") == Some(Str(if out.NotJson? then out.text else out.repr))
    ensures !InnerFailed(Onchain(out))
  {
    var fs := Onchain(out).fields;
    assert fs[0].key == "raw";
    LookupMissing(fs, "status");
  }

  /** The `evidence` summary of a success: the content preview is the first 200 characters of the unstripped text. */
  function PreviewJson(req: Request, text: string, recordedAt: string): Json {
    Dict(["type", "source", "content_preview", "timestamp", "uploader_address", "file_name"],
         [Str(req.evidenceType), Str(req.source), Str(Take(text, 200)), Str(recordedAt),
          Str(req.uploaderAddress), Str(req.fileName)])
  }

  /** The tool's reply once the storage tool has answered. */
  function WrapJson(req: Request, text: string, recordedAt: string, onchain: Json): Json {
    if InnerFailed(onchain) then
      Dict(["status", "error", "message", "onchain"], [Str("error"), Str("onchain_failed"), Str("证据上链失败"), onchain])
    else
      Dict(["status", "message", "evidence", "onchain"],
           [Str("success"), Str("证据上传并上链成功"), PreviewJson(req, text, recordedAt), onchain])
  }

  /**
   * An inner error becomes `onchain_failed`, anything else a success with the
   * preview; either way the storage tool's result is kept under `onchain`.
   */
  lemma WrapJsonFields(req: Request, text: string, recordedAt: string, onchain: Json)
    ensures Get(WrapJson(req, text, recordedAt, onchain), "status") ==
              Some(Str(if InnerFailed(onchain) then "error" else "success"))
    ensures Get(WrapJson(req, text, recordedAt, onchain), "onchain") == Some(onchain)
    ensures Get(WrapJson(req, text, recordedAt, onchain), "error") ==
              if InnerFailed(onchain) then Some(Str("onchain_failed")) else None
    ensures Get(WrapJson(req, text, recordedAt, onchain), "message") ==
              Some(Str(if InnerFailed(onchain) then "证据上链失败" else "证据上传并上链成功"))
    ensures !InnerFailed(onchain) ==>
              Get(WrapJson(req, text, recordedAt, onchain), "evidence") == Some(PreviewJson(req, text, recordedAt))
  {
    var fs := WrapJson(req, text, recordedAt, onchain).fields;
    DistinctLookup(fs);
    assert fs[0].key == "status" && fs[3].key == "onchain";
    if InnerFailed(onchain) {
      assert fs[2].key == "message";
      assert fs[1].key == "error";
    } else {
      assert fs[1].key == "message" && fs[2].key == "evidence";
      LookupMissing(fs, "error");
    }
  }

  /** The preview's `content_preview` is the text's first 200 characters. */
  lemma PreviewFields(req: Request, text: string, recordedAt: string)
    ensures Get(PreviewJson(req, text, recordedAt), "content_preview") == Some(Str(Take(text, 200)))
    ensures Get(PreviewJson(req, text, recordedAt), "uploader_address") == Some(Str(req.uploaderAddress))
    ensures Get(PreviewJson(req, text, recordedAt), "file_name") == Some(Str(req.fileName))
  {
    var fs := PreviewJson(req, text, recordedAt).fields;
    DistinctLookup(fs);
    assert fs[2].key == "content_preview" && fs[4].key == "uploader_address" && fs[5].key == "file_name";
  }

  // ------------------------------------------------------------ execute

  /** `merged_metadata` built by `update` and the conditional assignments. */
  method Merge(req: Request) returns (merged: seq<Field>)
    ensures merged == MergeMetadata(req)
  {
    merged := [];
    if req.metadata.Some? && req.metadata.value.Obj? {
      merged := Update(merged, req.metadata.value.fields);
    }
    assert merged == BaseMetadata(req.metadata);
    if req.description != "" {
      merged := Put(merged, "description", Str(req.description));
    }
    if req.uploaderAddress != "" {
      merged := Put(merged, "uploader_address", Str(req.uploaderAddress));
    }
    if req.fileName != "" {
      merged := Put(merged, "file_name", Str(req.fileName));
    }
  }

  /**
   * The record built step by step: the evidence text extended by the file's
   * text, the metadata merged key by key, the dict literal, then `file_info`.
   * Asking the size of an existing file raises in `record`.
   */
  method BuildRecord(req: Request, probe: FileProbe, recordedAt: string) returns (text: string, record: Anchor.Reply<Json>)
    ensures text == EvidenceText(req, probe)
    ensures record.Raised? <==> SizeFails(req, probe)
    ensures record.Raised? ==> probe.Present? && probe.size.Raised? && record.fault == probe.size.fault
    ensures record.Ok? ==> !SizeFails(req, probe) && record.value == Record(req, probe, recordedAt)
  {
    text := req.content;
    if HasPath(req) && probe.Present? && probe.text.Some? {
      text := text + FileHeading + probe.text.value;
    }
    var merged := Merge(req);
    var evidence := RecordDict(Strip(text), req.evidenceType, req.source, recordedAt, Uploader(req), merged);
    if HasPath(req) {
      if probe.Present? && probe.size.Raised? {
        return text, Anchor.Raised(probe.size.fault);
      }
      evidence := Obj(Put(evidence.fields, "file_info", FileInfoJson(req.filePath.value, probe)));
    }
    record := Anchor.Ok(evidence);
  }

  /**
   * Everything `execute` promises: the checks come first, in this order, and
   * the storage tool is only called when they pass, on the record built from
   * the request; the reply follows the storage tool's outcome, and the
   * storage tool's own run is one `Anchor.Executed` describes. On each path
   * the reply is the exact dict of that path, message included.
   */
  predicate Executed(req: Request, probe: FileProbe, recordedAt: string,
                     env: Anchor.Env, vault: Anchor.VaultReply, sha256: seq<Byte> -> Anchor.Digest,
                     chain: Anchor.Chain, clock: Anchor.Clock,
                     result: Json, stored: Option<Json>, outcome: Option<Anchor.Outcome>, trace: seq<Anchor.Effect>)
  {
    && result.Obj?
    && (Get(result, "status") == Some(Str(if outcome.Some? && outcome.value.Anchored? then "success" else "error")))
    && (Get(result, "error") == Some(Str("empty_content")) <==> IsBlank(req.content))
    && (Get(result, "error") == Some(Str("unsupported_type")) <==>
          !IsBlank(req.content) && req.evidenceType !in EvidenceTypes)
    && (Get(result, "error") == Some(Str("exception")) <==> Validate(req).None? && SizeFails(req, probe))
    && (stored.Some? <==> Validate(req).None? && !SizeFails(req, probe))
    && (stored.None? ==> outcome.None? && trace == [])
    && (stored.Some? ==>
          && stored.value == Record(req, probe, recordedAt) && outcome.Some?
          && Anchor.Executed(stored.value, env, vault, sha256, chain, clock, outcome.value, trace))
    && (Get(result, "status") == Some(Str("success")) <==> outcome.Some? && outcome.value.Anchored?)
    && (Get(result, "error") == Some(Str("onchain_failed")) <==> outcome.Some? && !outcome.value.Anchored?)
    && (outcome.Some? ==> Get(result, "onchain") == Some(Anchor.ToJson(outcome.value)))
    && (outcome.Some? && outcome.value.Anchored? ==>
          && stored.Some? && outcome.value.evidence == stored.value
          && outcome.value.evidenceHash == Anchor.EvidenceHash(sha256, stored.value)
          && Get(result, "evidence") == Some(PreviewJson(req, EvidenceText(req, probe), recordedAt)))
    && (Validate(req).Some? ==> result == RejectionJson(Validate(req).value))
    && (Validate(req).None? && SizeFails(req, probe) ==> result == ExceptionJson(probe.size.fault.text))
    && (stored.Some? ==> result == WrapJson(req, EvidenceText(req, probe), recordedAt, Anchor.ToJson(outcome.value)))
  }

  /**
   * `UserEvidenceUploadTool.execute`: check the input, build the record,
   * anchor it with the storage tool and wrap its answer. `stored` is the
   * record handed to the storage tool (None when it is not called) and
   * `outcome`, `trace` what the storage tool did.
   */
  method Execute(req: Request, probe: FileProbe, recordedAt: string,
                 env: Anchor.Env, vault: Anchor.VaultReply, sha256: seq<Byte> -> Anchor.Digest,
                 chain: Anchor.Chain, clock: Anchor.Clock)
    returns (result: Json, stored: Option<Json>, outcome: Option<Anchor.Outcome>, trace: seq<Anchor.Effect>)
    ensures Executed(req, probe, recordedAt, env, vault, sha256, chain, clock, result, stored, outcome, trace)
  {
    var rejected := Validate(req);
    if rejected.Some? {
      ErrorJsonFields(rejected.value, "");
      return RejectionJson(rejected.value), None, None, [];
    }
    var text, built := BuildRecord(req, probe, recordedAt);
    if built.Raised? {
      ErrorJsonFields(EmptyContent, built.fault.text);
      return ExceptionJson(built.fault.text), None, None, [];
    }
    var record := built.value;
    var o, t := Anchor.Execute(record, env, vault, sha256, chain, clock);
    var onchain := Onchain(JsonText(Anchor.ToJson(o)));
    if o.Anchored? {
      Anchor.AnchoredRecord(record, env, vault, sha256, chain, clock, o, t);
      Anchor.AnchoredJson(o);
    } else {
      Anchor.FailedJson(o);
    }
    WrapJsonFields(req, text, recordedAt, onchain);
    result, stored, outcome, trace := WrapJson(req, text, recordedAt, onchain), Some(record), Some(o), t;
  }
}
