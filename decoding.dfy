/** How downloadContract checks the explorer's reply and turns its
    `SourceCode` field into one contract body (the three encodings the
    explorer uses: valid JSON keyed by contract name, JSON with doubled outer
    braces holding a `sources` map, or the flattened source itself). */
module SourceDecoding {
  import opened Wrappers
  import opened JsonValue

  /** `JSON.parse`: `None` where it throws. It is a library call, so the model
      takes it as a parameter and assumes nothing about it. */
  type Parser = string -> Option<Json>

  /** The errors downloadContract throws, one per place that throws. */
  datatype DownloadError =
    | NotOk                 // the explorer's `message` is not "OK"
    | SourceCodeMissing     // `result[0].SourceCode` is missing or empty
    | RepairedJsonInvalid   // the brace-stripped text does not parse either
    | SourcesMissing        // the repaired value has no `sources` to index (a TypeError)
    | ContractSourceMissing // nothing truthy was found for the contract
    | ContentNotText        // truthy content that is not a string: the file write refuses it
    | DirectoryMissing      // the challenge's contracts directory does not exist

  /** The part of the explorer's reply the pipeline reads: `data.message` and
      `data.result[0].SourceCode` (`None` when missing or not a string). */
  datatype ExplorerReply = ExplorerReply(message: Option<string>, sourceCode: Option<string>)

  /** `sourceCode.slice(0, 1) === "{"` */
  predicate StartsWithBrace(s: string)
    ensures StartsWithBrace(s) <==> s[..if |s| < 1 then |s| else 1] == "{"
  {
    |s| > 0 && s[0] == '{'
  }

  /** `sourceCode.substring(1).slice(0, -1)`: the text without its first and
      last characters. */
  function Repair(s: string): (r: string)
    ensures |s| >= 2 ==> [s[0]] + r + [s[|s| - 1]] == s
    ensures |s| < 2 ==> r == []
  {
    if |s| < 2 then [] else s[1..|s| - 1]
  }

  /** Repairing undoes one extra pair of wrapping characters. */
  lemma RepairUnwraps(open: char, t: string, close: char)
    ensures Repair([open] + t + [close]) == t
  {
  }

  /** `validJson?.sources[key]?.content` for a value that did parse. */
  function SourcesContent(valid: Json, key: string): (r: Result<Option<Json>, DownloadError>)
    ensures r.Failure? <==> !valid.JNull? && Nullish(Member(Some(valid), "sources"))
    ensures r.Failure? ==> r.error == SourcesMissing
    ensures r.Success? ==> r.value == ContentOf(Member(Some(valid), "sources"), key)
    ensures valid.JObject? && "sources" in valid.fields && HasContent(valid.fields["sources"], key, "")
      ==> r == Success(Some(JString("")))
  {
    if valid.JNull? then Success(None)
    else
      var sources := Member(Some(valid), "sources");
      if Nullish(sources) then Failure(SourcesMissing)
      else Success(ContentOf(sources, key))
  }

  /** The value `sourceCodeParsed` holds after the try/catch, or the error
      thrown inside it. */
  function Resolve(parse: Parser, sourceCode: string, contractName: string): (r: Result<Option<Json>, DownloadError>)
    ensures r.Failure? ==>
      parse(sourceCode).None? && StartsWithBrace(sourceCode) && r.error in {RepairedJsonInvalid, SourcesMissing}
    ensures parse(sourceCode).Some? ==> r == Success(ContentOf(parse(sourceCode), contractName))
    ensures parse(sourceCode).None? && !StartsWithBrace(sourceCode) ==> r == Success(Some(JString(sourceCode)))
    ensures parse(sourceCode).None? && StartsWithBrace(sourceCode) && parse(Repair(sourceCode)).None? ==>
      r == Failure(RepairedJsonInvalid)
    ensures parse(sourceCode).None? && StartsWithBrace(sourceCode) && parse(Repair(sourceCode)).Some? ==>
      (r.Failure? <==> !parse(Repair(sourceCode)).value.JNull? && Nullish(Member(parse(Repair(sourceCode)), "sources")))
    ensures parse(sourceCode).None? && StartsWithBrace(sourceCode) && parse(Repair(sourceCode)).Some? && r.Failure? ==>
      r.error == SourcesMissing
    ensures parse(sourceCode).None? && StartsWithBrace(sourceCode) && r.Success? && parse(Repair(sourceCode)).Some? ==>
      var sources := Member(parse(Repair(sourceCode)), "sources");
      var primary := ContentOf(sources, "contracts/" + contractName);
      r.value == if Nullish(primary) then ContentOf(sources, "./contracts/" + contractName) else primary
  {
    match parse(sourceCode)
    case Some(parsed) => Success(ContentOf(Some(parsed), contractName))
    case None =>
      if StartsWithBrace(sourceCode) then
        match parse(Repair(sourceCode))
        case None => Failure(RepairedJsonInvalid)
        case Some(valid) =>
          match SourcesContent(valid, "contracts/" + contractName)
          case Failure(e) => Failure(e)
          case Success(primary) =>
            if Nullish(primary) then SourcesContent(valid, "./contracts/" + contractName)
            else Success(primary)
      else Success(Some(JString(sourceCode)))
  }

  /** The `!sourceCodeParsed` check, then the string the file write accepts. */
  function CheckContent(v: Option<Json>): (r: Result<string, DownloadError>)
    ensures r.Success? <==> exists body :: body != [] && v == Some(JString(body))
    ensures r.Success? ==> v == Some(JString(r.value))
    ensures r.Failure? && r.error == ContractSourceMissing <==> !Truthy(v)
  {
    if !Truthy(v) then Failure(ContractSourceMissing)
    else if v.value.JString? then Success(v.value.text)
    else Failure(ContentNotText)
  }

  /** The contract body that `SourceCode` resolves to for `contractName`. */
  function Normalize(parse: Parser, sourceCode: string, contractName: string): (r: Result<string, DownloadError>)
    ensures r.Success? ==> r.value != []
    ensures r.Success? ==>
      || (parse(sourceCode).Some? && HasContent(parse(sourceCode).value, contractName, r.value))
      || (&& parse(sourceCode).None? && StartsWithBrace(sourceCode)
          && parse(Repair(sourceCode)).Some?
          && var sources := Member(parse(Repair(sourceCode)), "sources");
             || ContentOf(sources, "contracts/" + contractName) == Some(JString(r.value))
             || ContentOf(sources, "./contracts/" + contractName) == Some(JString(r.value)))
      || (parse(sourceCode).None? && !StartsWithBrace(sourceCode) && r.value == sourceCode)
    ensures parse(sourceCode).Some? && r.Failure? ==> r.error in {ContractSourceMissing, ContentNotText}
    ensures !StartsWithBrace(sourceCode) && r.Failure? ==> r.error in {ContractSourceMissing, ContentNotText}
  {
    match Resolve(parse, sourceCode, contractName)
    case Failure(e) => Failure(e)
    case Success(v) => CheckContent(v)
  }

  /** downloadContract up to the file write: the reply check, then decoding. */
  function Fetch(reply: ExplorerReply, contractName: string, parse: Parser): (r: Result<string, DownloadError>)
    ensures reply.message != Some("OK") ==> r == Failure(NotOk)
    ensures reply.message == Some("OK") && (reply.sourceCode.None? || reply.sourceCode.value == []) ==>
      r == Failure(SourceCodeMissing)
    ensures r.Success? ==> r.value != [] && reply.message == Some("OK") && reply.sourceCode.Some?
    ensures reply.message == Some("OK") && reply.sourceCode.Some? && reply.sourceCode.value != [] ==>
      r == Normalize(parse, reply.sourceCode.value, contractName)
  {
    if reply.message != Some("OK") then Failure(NotOk)
    else if reply.sourceCode.None? || reply.sourceCode.value == [] then Failure(SourceCodeMissing)
    else Normalize(parse, reply.sourceCode.value, contractName)
  }

  // ---- The dispatch order, branch by branch ----

  /** When `SourceCode` parses, the result depends on that parse alone: two
      parsers that agree on it agree on the result, whatever they make of the
      repaired text. */
  lemma ParsedNeverFallsBack(p1: Parser, p2: Parser, sourceCode: string, contractName: string)
    requires p1(sourceCode).Some? && p1(sourceCode) == p2(sourceCode)
    ensures Normalize(p1, sourceCode, contractName) == Normalize(p2, sourceCode, contractName)
  {
  }

  /** Valid JSON keyed by the contract name yields that entry's content. */
  lemma ValidJsonYieldsContent(parse: Parser, sourceCode: string, contractName: string, body: string)
    requires parse(sourceCode).Some? && HasContent(parse(sourceCode).value, contractName, body)
    requires body != []
    ensures Normalize(parse, sourceCode, contractName) == Success(body)
  {
  }

  /** Valid JSON that is not an object, or lacks the contract's key, fails. */
  lemma ValidJsonWithoutEntryFails(parse: Parser, sourceCode: string, contractName: string)
    requires parse(sourceCode).Some?
    requires !parse(sourceCode).value.JObject? || contractName !in parse(sourceCode).value.fields
    ensures Normalize(parse, sourceCode, contractName) == Failure(ContractSourceMissing)
  {
  }

  /** Doubled braces: the `contracts/<name>` entry of `sources` is used. */
  lemma RepairedYieldsContractsEntry(parse: Parser, sourceCode: string, contractName: string, sources: Json, body: string)
    requires parse(sourceCode).None? && StartsWithBrace(sourceCode)
    requires parse(Repair(sourceCode)).Some? && Member(parse(Repair(sourceCode)), "sources") == Some(sources)
    requires HasContent(sources, "contracts/" + contractName, body) && body != []
    ensures Normalize(parse, sourceCode, contractName) == Success(body)
  {
  }

  /** The `./contracts/<name>` entry is used only when the first is null or
      absent. */
  lemma RepairedFallsBackToDotPath(parse: Parser, sourceCode: string, contractName: string, sources: Json, body: string)
    requires parse(sourceCode).None? && StartsWithBrace(sourceCode)
    requires parse(Repair(sourceCode)).Some? && Member(parse(Repair(sourceCode)), "sources") == Some(sources)
    requires Nullish(ContentOf(Some(sources), "contracts/" + contractName))
    requires HasContent(sources, "./contracts/" + contractName, body) && body != []
    ensures Normalize(parse, sourceCode, contractName) == Success(body)
  {
  }

  /** An empty first entry is not nullish, so it is kept and then rejected,
      whatever the `./contracts/<name>` entry holds. */
  lemma RepairedEmptyEntryDoesNotFallBack(parse: Parser, sourceCode: string, contractName: string, sources: Json)
    requires parse(sourceCode).None? && StartsWithBrace(sourceCode)
    requires parse(Repair(sourceCode)).Some? && Member(parse(Repair(sourceCode)), "sources") == Some(sources)
    requires HasContent(sources, "contracts/" + contractName, [])
    ensures Normalize(parse, sourceCode, contractName) == Failure(ContractSourceMissing)
  {
  }

  /** A repaired value without `sources` (other than `null` itself) throws. */
  lemma RepairedWithoutSourcesFails(parse: Parser, sourceCode: string, contractName: string)
    requires parse(sourceCode).None? && StartsWithBrace(sourceCode)
    requires parse(Repair(sourceCode)).Some? && !parse(Repair(sourceCode)).value.JNull?
    requires Nullish(Member(parse(Repair(sourceCode)), "sources"))
    ensures Normalize(parse, sourceCode, contractName) == Failure(SourcesMissing)
  {
  }

  /** Text that starts with a brace and does not parse, with or without its
      first and last characters, fails (e.g. "{not json}"). */
  lemma BracedGarbageFails(parse: Parser, sourceCode: string, contractName: string)
    requires StartsWithBrace(sourceCode) && parse(sourceCode).None? && parse(Repair(sourceCode)).None?
    ensures Normalize(parse, sourceCode, contractName) == Failure(RepairedJsonInvalid)
  {
  }

  /** Text that does not parse and does not start with a brace is the
      flattened source, returned verbatim. */
  lemma FlatSourceIsVerbatim(parse: Parser, sourceCode: string, contractName: string)
    requires parse(sourceCode).None? && !StartsWithBrace(sourceCode) && sourceCode != []
    ensures Normalize(parse, sourceCode, contractName) == Success(sourceCode)
  {
  }
}
