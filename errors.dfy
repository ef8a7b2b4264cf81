/** The error type the client throws and the text the tool layer shows for
    anything thrown (src/utils/errors.ts). */
module Errors {
  import opened JsText

  /** The `name` every SemanticScholarError carries. */
  const ErrorName := "SemanticScholarError"

  const MessagePrefix := "Semantic Scholar API Error ("
  const MessageInfix := "): "

  /** `new SemanticScholarError(statusCode, response)`. */
  datatype ApiError = ApiError(statusCode: int, response: string) {

    /** The `name` the constructor sets, which tells the error apart from a
        plain `Error` (whose `name` is "Error"). */
    function Name(): (n: string)
      ensures n == ErrorName && n != "Error"
    {
      ErrorName
    }

    /** The `message` passed to `Error`: prefix, the status code, then the raw response. */
    function Message(): (m: string)
      ensures StartsWith(m, MessagePrefix)
      ensures |response| <= |m| && m[|m| - |response|..] == response
      ensures Contains(m, IntToString(statusCode)) && Contains(m, response)
    {
      var code := IntToString(statusCode);
      var m := MessagePrefix + code + MessageInfix + response;
      assert m == MessagePrefix + (code + MessageInfix + response);
      assert OccursAt(m, code, |MessagePrefix|);
      assert OccursAt(m, response, |m| - |response|);
      m
    }
  }

  /** The message determines the error: distinct errors never read alike. */
  lemma MessageDeterminesError(e1: ApiError, e2: ApiError)
    requires e1.Message() == e2.Message()
    ensures e1 == e2
  {
    NumeralSplit(MessagePrefix, IntToString(e1.statusCode), IntToString(e2.statusCode),
      MessageInfix, e1.response, e2.response);
    IntToStringInjective(e1.statusCode, e2.statusCode);
  }

  /** The values a tool handler may catch that are not `Error` objects. */
  datatype JsValue = JsStr(text: string) | JsNumber(number: int) | JsBool(flag: bool) | JsNull | JsUndefined

  /** `String(value)`. */
  function ToJsString(v: JsValue): (s: string)
    ensures v.JsStr? ==> s == v.text
    ensures v.JsNumber? ==> s == IntToString(v.number)
  {
    match v
    case JsStr(t) => t
    case JsNumber(n) => IntToString(n)
    case JsBool(b) => if b then "true" else "false"
    case JsNull => "null"
    case JsUndefined => "undefined"
  }

  /** Anything a `catch` clause can receive: a SemanticScholarError (which is
      also an `Error`), any other `Error`, or a value that is not an `Error`. */
  datatype Thrown = ApiFailure(error: ApiError) | PlainError(message: string) | NonError(value: JsValue)

  const BadRequestText := "请求参数错误，请检查输入"
  const NotFoundText := "未找到指定的论文或作者"
  const TooManyRequestsText := "API 请求过于频繁，请稍后重试"
  const ServerErrorText := "Semantic Scholar 服务器错误，请稍后重试"
  const OtherApiErrorPrefix := "API 错误: "

  /** The status codes that have a fixed explanation. */
  const KnownStatuses: set<int> := {400, 404, 429, 500}

  /** `formatToolError(error)`. */
  function FormatToolError(t: Thrown): (r: string)
    ensures t.ApiFailure? ==> (StartsWith(r, OtherApiErrorPrefix) <==> t.error.statusCode !in KnownStatuses)
    ensures t.PlainError? ==> r == t.message
    ensures t.NonError? ==> r == ToJsString(t.value)
  {
    match t
    case ApiFailure(e) =>
      assert BadRequestText[0] != OtherApiErrorPrefix[0];
      assert NotFoundText[0] != OtherApiErrorPrefix[0];
      assert TooManyRequestsText[4] != OtherApiErrorPrefix[4];
      assert ServerErrorText[0] != OtherApiErrorPrefix[0];
      if e.statusCode == 400 then BadRequestText
      else if e.statusCode == 404 then NotFoundText
      else if e.statusCode == 429 then TooManyRequestsText
      else if e.statusCode == 500 then ServerErrorText
      else
        var r := OtherApiErrorPrefix + e.Message();
        assert r[..|OtherApiErrorPrefix|] == OtherApiErrorPrefix;
        r
    case PlainError(m) => m
    case NonError(v) => ToJsString(v)
  }

  /** Each known status has its own explanation, whatever the response text. */
  lemma FormatKnownStatuses(response: string)
    ensures FormatToolError(ApiFailure(ApiError(400, response))) == BadRequestText
    ensures FormatToolError(ApiFailure(ApiError(404, response))) == NotFoundText
    ensures FormatToolError(ApiFailure(ApiError(429, response))) == TooManyRequestsText
    ensures FormatToolError(ApiFailure(ApiError(500, response))) == ServerErrorText
    ensures |{BadRequestText, NotFoundText, TooManyRequestsText, ServerErrorText}| == 4
  {
    assert BadRequestText[0] != NotFoundText[0];
    assert BadRequestText[0] != TooManyRequestsText[0];
    assert BadRequestText[0] != ServerErrorText[0];
    assert NotFoundText[0] != TooManyRequestsText[0];
    assert NotFoundText[0] != ServerErrorText[0];
    assert TooManyRequestsText[0] != ServerErrorText[0];
  }

  /** Any other status keeps the full message, so the code and the response
      can still be read from the text. */
  lemma FormatOtherStatus(e: ApiError)
    requires e.statusCode !in KnownStatuses
    ensures FormatToolError(ApiFailure(e)) == OtherApiErrorPrefix + e.Message()
    ensures Contains(FormatToolError(ApiFailure(e)), IntToString(e.statusCode))
    ensures Contains(FormatToolError(ApiFailure(e)), e.response)
  {
    ContainsAfterPrefix(OtherApiErrorPrefix, e.Message(), IntToString(e.statusCode));
    ContainsAfterPrefix(OtherApiErrorPrefix, e.Message(), e.response);
  }

  /** The SemanticScholarError test comes first: such an error never falls
      through to the branch that returns the bare `message`. */
  lemma FormatApiErrorNotBare(e: ApiError)
    ensures FormatToolError(ApiFailure(e)) != e.Message()
  {
    var m := e.Message();
    assert m[..|MessagePrefix|] == MessagePrefix;
    assert m[0] == 'S';
    if e.statusCode == 500 {
      assert m[17] == 'A';
      assert ServerErrorText[17] != 'A';
    } else if e.statusCode !in KnownStatuses {
      assert |OtherApiErrorPrefix + m| > |m|;
    }
  }

  /** The values the tool tests throw that are not errors. */
  lemma FormatNonErrorExamples()
    ensures FormatToolError(NonError(JsStr("string error"))) == "string error"
    ensures FormatToolError(NonError(JsNumber(123))) == "123"
    ensures FormatToolError(PlainError("Network error")) == "Network error"
  {
    assert NatToString(12) == "12";
    assert NatToString(123) == "123";
  }
}
