/**
 * The message monitor tool that is in effect (the second `execute` of the
 * WeChat web monitor): it scans a list of chat messages for keywords, case
 * insensitively, tags each message that contains any with the keywords found,
 * and reports the tagged messages or that nothing matched. The message list
 * is an input.
 */
module Monitor {
  import opened Wrappers
  import opened Text
  import opened Json

  datatype ChatMessage = ChatMessage(platform: string, sender: string, content: string, timestamp: string, group: string)

  /** A detected message together with its `matched_keywords`. */
  datatype Hit = Hit(message: ChatMessage, matched: seq<string>)

  /** `kw.lower() in content.lower()`. */
  predicate KeywordOccurs(keyword: string, content: string) {
    Contains(Lower(content), Lower(keyword))
  }

  /** `[kw for kw in keywords if kw.lower() in content_lower]`. */
  function MatchedKeywords(keywords: seq<string>, content: string): seq<string> {
    if keywords == [] then []
    else (if KeywordOccurs(keywords[0], content) then [keywords[0]] else [])
         + MatchedKeywords(keywords[1..], content)
  }

  /** A keyword is reported exactly when it is one of the keywords and occurs in the content. */
  lemma {:induction false} MatchedKeywordsMembers(keywords: seq<string>, content: string)
    ensures forall k :: k in MatchedKeywords(keywords, content) <==> k in keywords && KeywordOccurs(k, content)
  {
    if keywords != [] {
      MatchedKeywordsMembers(keywords[1..], content);
      assert forall k :: k in keywords <==> k == keywords[0] || k in keywords[1..];
    }
  }

  /** The filter keeps keyword order: matching a concatenation matches each part in turn. */
  lemma {:induction false} MatchedKeywordsAppend(a: seq<string>, b: seq<string>, content: string)
    ensures MatchedKeywords(a + b, content) == MatchedKeywords(a, content) + MatchedKeywords(b, content)
  {
    if a == [] {
      assert a + b == b;
    } else {
      assert (a + b)[0] == a[0] && (a + b)[1..] == a[1..] + b;
      MatchedKeywordsAppend(a[1..], b, content);
    }
  }

  /** The detected messages of a prefix of the list, in list order. */
  function Detections(messages: seq<ChatMessage>, keywords: seq<string>): seq<Hit>
    decreases |messages|
  {
    if messages == [] then []
    else
      var last := messages[|messages| - 1];
      var matched := MatchedKeywords(keywords, last.content);
      Detections(messages[..|messages| - 1], keywords) + (if matched != [] then [Hit(last, matched)] else [])
  }

  /** The scan over the messages: each one with a matching keyword is tagged and kept, in order. */
  method Detect(messages: seq<ChatMessage>, keywords: seq<string>) returns (detected: seq<Hit>)
    ensures detected == Detections(messages, keywords)
  {
    detected := [];
    for i := 0 to |messages|
      invariant detected == Detections(messages[..i], keywords)
    {
      var msg := messages[i];
      var matched := MatchedKeywords(keywords, msg.content);
      if matched != [] {
        detected := detected + [Hit(msg, matched)];
      }
      assert messages[..i + 1][..i] == messages[..i];
    }
    assert messages[..|messages|] == messages;
  }

  /**
   * Exactly the messages in which some keyword occurs are detected, each
   * with its own matched keywords, and no more detections than messages.
   */
  lemma {:induction false} DetectionsExact(messages: seq<ChatMessage>, keywords: seq<string>)
    ensures |Detections(messages, keywords)| <= |messages|
    ensures forall h :: h in Detections(messages, keywords) ==>
              && h.message in messages && h.matched == MatchedKeywords(keywords, h.message.content)
              && h.matched != []
    ensures forall m :: m in messages && MatchedKeywords(keywords, m.content) != [] ==>
              Hit(m, MatchedKeywords(keywords, m.content)) in Detections(messages, keywords)
    decreases |messages|
  {
    if messages != [] {
      var init := messages[..|messages| - 1];
      DetectionsExact(init, keywords);
      assert forall m :: m in messages <==> m in init || m == messages[|messages| - 1];
    }
  }

  /** Detection keeps message order: scanning a concatenation scans each part in turn. */
  lemma {:induction false} DetectionsAppend(a: seq<ChatMessage>, b: seq<ChatMessage>, keywords: seq<string>)
    ensures Detections(a + b, keywords) == Detections(a, keywords) + Detections(b, keywords)
    decreases |b|
  {
    if b == [] {
      assert a + b == a;
    } else {
      var init := b[..|b| - 1];
      assert (a + b)[..|a + b| - 1] == a + init;
      assert (a + b)[|a + b| - 1] == b[|b| - 1];
      DetectionsAppend(a, init, keywords);
    }
  }

  /** What the tool reports. */
  datatype Report = Found(hits: seq<Hit>) | NoMatches(keywords: seq<string>)

  /** The monitor tool: scan the messages, then report the hits or that there were none. */
  method Execute(messages: seq<ChatMessage>, keywords: seq<string>) returns (report: Report)
    ensures report.Found? <==> exists m :: m in messages && MatchedKeywords(keywords, m.content) != []
    ensures report.Found? ==> report.hits == Detections(messages, keywords)
    ensures report.NoMatches? ==> report.keywords == keywords
  {
    var detected := Detect(messages, keywords);
    DetectionsExact(messages, keywords);
    if detected != [] {
      assert detected[0] in detected;
      report := Found(detected);
    } else {
      report := NoMatches(keywords);
    }
  }

  /** Python's `repr` of a string with only printable characters and no quotes or backslashes in it. */
  function StrRepr(s: string): string {
    "'" + s + "'"
  }

  function ListReprItems(xs: seq<string>): string {
    if xs == [] then ""
    else if |xs| == 1 then StrRepr(xs[0])
    else StrRepr(xs[0]) + ", " + ListReprItems(xs[1..])
  }

  /** Python's `str` of a list of strings, as the f-string prints it. */
  function ListRepr(xs: seq<string>): string {
    "[" + ListReprItems(xs) + "]"
  }

  function Strs(xs: seq<string>): (r: seq<Json>)
    ensures |r| == |xs| && forall i :: 0 <= i < |xs| ==> r[i] == Str(xs[i])
  {
    seq(|xs|, i requires 0 <= i < |xs| => Str(xs[i]))
  }

  /** A detected message dict, with `matched_keywords` added after its own keys. */
  function HitJson(h: Hit): Json {
    Dict(["platform", "sender", "content", "timestamp", "group", "matched_keywords"],
         [Str(h.message.platform), Str(h.message.sender), Str(h.message.content),
          Str(h.message.timestamp), Str(h.message.group), Arr(Strs(h.matched))])
  }

  function HitsJson(hs: seq<Hit>): (r: seq<Json>)
    ensures |r| == |hs| && forall i :: 0 <= i < |hs| ==> r[i] == HitJson(hs[i])
  {
    seq(|hs|, i requires 0 <= i < |hs| => HitJson(hs[i]))
  }

  /** The dict the tool serialises. */
  function ReportJson(r: Report): Json {
    match r
    case Found(hits) =>
      Dict(["status", "detected_count", "messages"], [Str("success"), Int(|hits|), Arr(HitsJson(hits))])
    case NoMatches(keywords) =>
      Dict(["status", "message"], [Str("no_matches"), Str("监听期间未检测到关键词: " + ListRepr(keywords))])
  }

  /**
   * The reported `status` is `success` exactly when something was detected,
   * and `detected_count` is the number of detected messages.
   */
  lemma ReportJsonFields(r: Report)
    ensures Get(ReportJson(r), "status") == Some(Str(if r.Found? then "success" else "no_matches"))
    ensures r.Found? ==> Get(ReportJson(r), "detected_count") == Some(Int(|r.hits|))
    ensures r.Found? ==> Get(ReportJson(r), "messages") == Some(Arr(HitsJson(r.hits)))
  {
    var fs := ReportJson(r).fields;
    DistinctLookup(fs);
    assert fs[0].key == "status";
    if r.Found? {
      assert fs[1].key == "detected_count" && fs[2].key == "messages";
    }
  }
}
