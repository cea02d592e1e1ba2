/**
 * The web backend's evidence upload endpoint: `POST /api/upload-evidence`
 * takes a multipart form with one file, turns the file into text (UTF-8, or
 * base64 for anything else), runs the upload tool on it and flattens the
 * tool's JSON reply into the body the front end reads. The server keeps one
 * piece of state, whether the upload tool has been created.
 */
module Http {
  import opened Wrappers
  import opened Bytes
  import opened Text
  import opened Json
  import Anchor
  import Upload

  /** The uploaded file: its client-side name and its bytes. */
  datatype UploadedFile = UploadedFile(filename: string, content: seq<Byte>)

  /** The multipart request: `request.files['evidence_file']` if sent, and the text fields of `request.form`. */
  datatype Form = Form(file: Option<UploadedFile>, fields: map<string, string>)

  /** A JSON response and its HTTP status code. */
  datatype Response = Response(code: int, body: Json)

  /** `request.form.get(name, default)`: a field that was sent is used even when empty. */
  function FormValue(form: Form, name: string, default: string): string {
    if name in form.fields then form.fields[name] else default
  }

  /** The evidence type as declared by the form: `document` when absent, and the legacy `text` read as `document`. */
  function DeclaredType(form: Form): (t: string)
    ensures "evidence_type" !in form.fields ==> t == "document"
    ensures t != "text"
    ensures FormValue(form, "evidence_type", "document") == "text" ==> t == "document"
    ensures FormValue(form, "evidence_type", "document") != "text" ==> t == FormValue(form, "evidence_type", "document")
  {
    var t := FormValue(form, "evidence_type", "document");
    if t == "text" then "document" else t
  }

  /** The file's text and final type: its UTF-8 text under the declared type, or its base64 text as `binary`. */
  function FileText(bytes: seq<Byte>, declared: string): (string, string) {
    match Utf8Decode(bytes)
    case Some(text) => (text, declared)
    case None => (Base64Encode(bytes), "binary")
  }

  /** `content_encoding` follows the final type, not the bytes. */
  function ContentEncoding(evidenceType: string): string {
    if evidenceType != "binary" then "utf-8" else "base64"
  }

  /** The arguments the endpoint passes to the upload tool. */
  function ToolRequest(form: Form, file: UploadedFile): Upload.Request {
    var (text, evidenceType) := FileText(file.content, DeclaredType(form));
    var userAddress := FormValue(form, "user_address", "");
    Upload.Request(
      text, evidenceType, FormValue(form, "evidence_source", "user_upload"),
      if userAddress != "" then userAddress else "local",
      FormValue(form, "description", ""), userAddress, file.filename, None,
      Some(Dict(["content_encoding"], [Str(ContentEncoding(evidenceType))])))
  }

  /**
   * The file reaches the tool without loss: valid UTF-8 is passed as its
   * text under the declared type, anything else as base64 under `binary`;
   * the metadata holds only `content_encoding`, which is `base64` exactly
   * for `binary`; the signer is the user's address or `local`.
   */
  lemma {:induction false} ToolRequestFacts(form: Form, file: UploadedFile)
    ensures var r := ToolRequest(form, file);
            && (Utf8Decode(file.content).Some? ==>
                  Utf8Encode(r.content) == file.content && r.evidenceType == DeclaredType(form))
            && (Utf8Decode(file.content).None? ==>
                  Base64Decode(r.content) == Some(file.content) && r.evidenceType == "binary")
            && r.source == FormValue(form, "evidence_source", "user_upload")
            && r.uploaderAddress == FormValue(form, "user_address", "")
            && r.signWith == (if r.uploaderAddress != "" then r.uploaderAddress else "local")
            && r.description == FormValue(form, "description", "")
            && r.fileName == file.filename && r.filePath.None?
            && r.metadata.Some? && r.metadata.value.Obj?
            && KeySet(r.metadata.value.fields) == {"content_encoding"}
            && Lookup(r.metadata.value.fields, "content_encoding") ==
                 Some(Str(if r.evidenceType == "binary" then "base64" else "utf-8"))
  {
    var r := ToolRequest(form, file);
    match Utf8Decode(file.content)
    case Some(text) =>
      Utf8DecodeSound(file.content);
    case None =>
      Base64RoundTrip(file.content);
    assert r.metadata.value.fields == [Field("content_encoding", Str(ContentEncoding(r.evidenceType)))];
  }

  /**
   * A file the user declares `binary` that happens to be valid UTF-8 is
   * passed as plain text but labelled `base64`.
   */
  lemma BinaryTextLabelledBase64(form: Form, file: UploadedFile)
    requires FormValue(form, "evidence_type", "document") == "binary"
    requires Utf8Decode(file.content).Some?
    ensures ToolRequest(form, file).content == Utf8Decode(file.content).value
    ensures ToolRequest(form, file).metadata == Some(Obj([Field("content_encoding", Str("base64"))]))
  {
    assert DeclaredType(form) == "binary";
    assert ToolRequest(form, file).evidenceType == "binary";
    assert ToolRequest(form, file).metadata.value.fields == [Field("content_encoding", Str("base64"))];
  }

  // ------------------------------------------------------------ the reply

  /** The keys of the flattened body, in the order the endpoint writes them. */
  const FlatKeys: seq<string> := [
    "success", "status", "message", "error", "tx_hash", "evidence_hash", "signature",
    "timestamp", "explorer_url", "result", "onchain"]

  lemma FlatKeysDistinct()
    ensures forall i, j :: 0 <= i < j < |FlatKeys| ==> FlatKeys[i] != FlatKeys[j]
  {
  }

  /** The values of the flattened body, key by key. */
  function FlatValues(parsed: Json): (vs: seq<Json>)
    ensures |vs| == |FlatKeys|
  {
    var status := GetOrNull(parsed, "status");
    var success := status == Str("success");
    var message := GetOrNull(parsed, "message");
    var onchain := GetOrNull(parsed, "onchain");
    var onchainDict := if onchain.Obj? then onchain else Obj([]);
    [Bool(success), status, if Truthy(message) then message else Str(if success then "OK" else "FAILED"),
     GetOrNull(parsed, "error"), GetOrNull(onchainDict, "tx_hash"), GetOrNull(onchainDict, "evidence_hash"),
     GetOrNull(onchainDict, "signature"), GetOrNull(onchainDict, "timestamp"),
     GetOrNull(onchainDict, "explorer"), parsed, onchain]
  }

  /** The front end's body: `success`, the tool's status, message and error, and the anchoring fields lifted from `onchain`. */
  function Flatten(parsed: Json): Json {
    Dict(FlatKeys, FlatValues(parsed))
  }

  /** Each key of the flattened body finds its own value. */
  lemma FlattenLookup(parsed: Json)
    ensures Flatten(parsed).Obj?
    ensures forall i :: 0 <= i < |FlatKeys| ==> Lookup(Flatten(parsed).fields, FlatKeys[i]) == Some(FlatValues(parsed)[i])
  {
    var fs := Flatten(parsed).fields;
    FlatKeysDistinct();
    DistinctLookup(fs);
  }

  /** What the endpoint answers for what the tool returned. */
  function Respond(out: ToolOutput): Response {
    match out
    case JsonText(parsed) =>
      if parsed.Obj? then Response(200, Flatten(parsed))
      // `parsed_result.get` on a list, string or number raises AttributeError
      else Response(500, Dict(["error"], [Str("'" + TypeName(parsed) + "' object has no attribute 'get'")]))
    case NotJson(text) =>
      Response(200, Dict(["success", "error", "message", "raw_response"],
                         [Bool(false), Str("invalid_json"), Str(text), Str(text)]))
    case NotText(repr) =>
      Response(200, Dict(["success", "error", "result"], [Bool(false), Str("invalid_result_type"), Str(repr)]))
  }

  /** The flattened fields, read only from an `onchain` that is a dict. */
  function OnchainField(parsed: Json, k: string): Json {
    var onchain := GetOrNull(parsed, "onchain");
    if onchain.Obj? then GetOrNull(onchain, k) else Null
  }

  /**
   * `success` holds exactly when the tool's status is `success`; a missing
   * or empty message falls back to `OK` / `FAILED`; the tool's reply is kept
   * whole under `result`.
   */
  lemma FlattenStatus(parsed: Json)
    ensures Get(Flatten(parsed), "success") == Some(Bool(Get(parsed, "status") == Some(Str("success"))))
    ensures Get(Flatten(parsed), "status") == Some(GetOrNull(parsed, "status"))
    ensures Get(Flatten(parsed), "message") ==
              Some(if Truthy(GetOrNull(parsed, "message")) then GetOrNull(parsed, "message")
                   else Str(if Get(parsed, "status") == Some(Str("success")) then "OK" else "FAILED"))
    ensures Get(Flatten(parsed), "error") == Some(GetOrNull(parsed, "error"))
    ensures Get(Flatten(parsed), "result") == Some(parsed)
  {
    FlattenLookup(parsed);
    assert FlatKeys[0] == "success" && FlatKeys[1] == "status" && FlatKeys[2] == "message";
    assert FlatKeys[3] == "error" && FlatKeys[9] == "result";
  }

  /**
   * The anchoring fields come from `onchain` when it is a dict and are null
   * otherwise, `explorer_url` being its `explorer`.
   */
  lemma FlattenOnchain(parsed: Json)
    ensures Get(Flatten(parsed), "tx_hash") == Some(OnchainField(parsed, "tx_hash"))
    ensures Get(Flatten(parsed), "evidence_hash") == Some(OnchainField(parsed, "evidence_hash"))
    ensures Get(Flatten(parsed), "signature") == Some(OnchainField(parsed, "signature"))
    ensures Get(Flatten(parsed), "timestamp") == Some(OnchainField(parsed, "timestamp"))
    ensures Get(Flatten(parsed), "explorer_url") == Some(OnchainField(parsed, "explorer"))
  {
    FlattenLookup(parsed);
    assert FlatKeys[4] == "tx_hash" && FlatKeys[5] == "evidence_hash" && FlatKeys[6] == "signature";
    assert FlatKeys[7] == "timestamp" && FlatKeys[8] == "explorer_url";
  }

  /** A reply that is not JSON, or not text, is reported as a failure with its own error code. */
  lemma UnparsedReplies(out: ToolOutput)
    requires !out.JsonText?
    ensures Respond(out).code == 200
    ensures Get(Respond(out).body, "success") == Some(Bool(false))
    ensures Get(Respond(out).body, "error") == Some(Str(if out.NotJson? then "invalid_json" else "invalid_result_type"))
  {
    var fs := Respond(out).body.fields;
    DistinctLookup(fs);
    assert fs[0].key == "success" && fs[1].key == "error";
  }

  /**
   * The form read step by step: the type with its default and alias, the
   * other fields, then the file, whose undecodable bytes switch the type to
   * `binary`.
   */
  method ReadForm(form: Form, file: UploadedFile) returns (request: Upload.Request)
    ensures request == ToolRequest(form, file)
  {
    var evidenceType := FormValue(form, "evidence_type", "document");
    if evidenceType == "text" {
      evidenceType := "document";
    }
    var source := FormValue(form, "evidence_source", "user_upload");
    var userAddress := FormValue(form, "user_address", "");
    var description := FormValue(form, "description", "");
    var content: string;
    var decoded := Utf8Decode(file.content);
    if decoded.Some? {
      content := decoded.value;
    } else {
      content := Base64Encode(file.content);
      evidenceType := "binary";
    }
    var signWith := if userAddress != "" then userAddress else "local";
    var encoding := if evidenceType != "binary" then "utf-8" else "base64";
    request := Upload.Request(content, evidenceType, source, signWith, description, userAddress, file.filename, None,
                              Some(Dict(["content_encoding"], [Str(encoding)])));
  }

  // ------------------------------------------------------------ the server

  /** The backend and its one piece of state: whether the upload tool exists. */
  class Server {
    var toolReady: bool

    /** At start-up there is no upload tool. */
    constructor()
      ensures !toolReady
    {
      toolReady := false;
    }

    /**
     * `init_upload_agent`: create the upload tool unless importing it fails
     * (`importFault` is that failure); a failed attempt leaves the server as
     * it was.
     */
    method InitUploadAgent(importFault: Option<string>) returns (ok: bool)
      modifies this
      ensures ok <==> importFault.None?
      ensures toolReady == (old(toolReady) || ok)
    {
      ok := importFault.None?;
      if ok {
        toolReady := true;
      }
    }

    /**
     * `upload_evidence`: refuse while there is no tool or no named file,
     * then run the tool on the file and answer with the flattened reply.
     * `forwarded` is what was passed to the tool, `reply` the tool's JSON
     * answer, and `stored`, `outcome` and `trace` what the storage tool was
     * given and did with the record.
     */
    method UploadEvidence(form: Form, recordedAt: string,
                          env: Anchor.Env, vault: Anchor.VaultReply, sha256: seq<Byte> -> Anchor.Digest,
                          chain: Anchor.Chain, clock: Anchor.Clock)
      returns (response: Response, forwarded: Option<Upload.Request>, reply: Option<Json>,
               stored: Option<Json>, outcome: Option<Anchor.Outcome>, trace: seq<Anchor.Effect>)
      ensures !toolReady ==> response == Response(500, Dict(["error"], [Str("证据上传工具未初始化")]))
      ensures toolReady && form.file.None? ==> response == Response(400, Dict(["error"], [Str("没有提供文件")]))
      ensures toolReady && form.file.Some? && form.file.value.filename == "" ==>
                response == Response(400, Dict(["error"], [Str("没有选择文件")]))
      // the tool is run exactly when the checks pass, on the request built from the form
      ensures forwarded.Some? <==> toolReady && form.file.Some? && form.file.value.filename != ""
      ensures forwarded.Some? ==> form.file.Some? && forwarded.value == ToolRequest(form, form.file.value)
      ensures forwarded.Some? ==> response.code == 200
      ensures forwarded.None? ==> reply.None? && stored.None? && outcome.None? && trace == []
      // the body is the tool's reply, flattened, and the tool did what `Upload.Executed` describes
      ensures forwarded.Some? ==>
                && reply.Some? && response == Respond(JsonText(reply.value))
                && Upload.Executed(forwarded.value, Upload.Missing, recordedAt, env, vault, sha256, chain, clock,
                                   reply.value, stored, outcome, trace)
      // success is reported exactly when the evidence was anchored, with the anchoring details
      ensures Get(response.body, "success") == Some(Bool(true)) <==> outcome.Some? && outcome.value.Anchored?
      ensures outcome.Some? && outcome.value.Anchored? ==>
                && stored.Some? && outcome.value.evidence == stored.value
                && Get(response.body, "evidence_hash") == Some(Str(Anchor.EvidenceHash(sha256, stored.value)))
                && Get(response.body, "tx_hash") == Some(Str(outcome.value.txHash))
                && Get(response.body, "signature") == Some(Str(outcome.value.signature))
                && Get(response.body, "explorer_url") == Some(Anchor.OptStr(outcome.value.explorer))
    {
      if !toolReady {
        return Response(500, Dict(["error"], [Str("证据上传工具未初始化")])), None, None, None, None, [];
      }
      if form.file.None? {
        return Response(400, Dict(["error"], [Str("没有提供文件")])), None, None, None, None, [];
      }
      var file := form.file.value;
      if file.filename == "" {
        return Response(400, Dict(["error"], [Str("没有选择文件")])), None, None, None, None, [];
      }
      var request := ReadForm(form, file);
      var result, s, o, t := Upload.Execute(request, Upload.Missing, recordedAt, env, vault, sha256, chain, clock);
      response := Respond(JsonText(result));
      FlattenStatus(result);
      FlattenOnchain(result);
      if o.Some? && o.value.Anchored? {
        Anchor.AnchoredJson(o.value);
      }
      forwarded, reply, stored, outcome, trace := Some(request), Some(result), s, o, t;
    }
  }
}
