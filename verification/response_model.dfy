/**
 * `Response`, the uniform result value of the service: a code, optional
 * payload data, an optional message and an optional status.  Its
 * constructor accepts either a bare code string or an entry of the code
 * table; an entry supplies code, message and status all at once.
 */
module ResponseModel {
  import opened JsValues
  import opened GeneralCodes

  /** The first constructor argument, `code: string | IResponseCode`. */
  datatype CodeArg = CodeText(text: string) | CodeEntry(entry: ResponseCode)

  /** A constructed `Response`; an omitted message or status is `None` (undefined). */
  datatype Response = Response(code: string, data: Value, message: Option<string>, status: Option<int>)

  /**
   * `new Response(code, data, message, status)`.  An entry argument
   * overrides whatever message and status were passed; the data is kept.
   */
  function Make(code: CodeArg, data: Value, message: Option<string>, status: Option<int>): (r: Response)
    ensures r.data == data
    ensures code.CodeEntry? ==>
              r.code == code.entry.code && r.message == Some(code.entry.message) && r.status == code.entry.status
    ensures code.CodeText? ==> r.code == code.text && r.message == message && r.status == status
  {
    match code
    case CodeText(text) => Response(text, data, message, status)
    case CodeEntry(entry) => Response(entry.code, data, Some(entry.message), entry.status)
  }

  /** `new Response(CODES[k])`: the common one-argument form. */
  function FromCode(k: CodeKey): Response {
    Make(CodeEntry(Lookup(k)), Undefined, None, None)
  }

  /** `new Response(CODES[k], data)`. */
  function FromCodeWithData(k: CodeKey, data: Value): Response {
    Make(CodeEntry(Lookup(k)), data, None, None)
  }

  /** `Response.success(data, code = 'SUCCESS')`: the code and data, no message, no status. */
  function Success(data: Value, code: string := "SUCCESS"): (r: Response)
    ensures r.code == code && r.data == data
    ensures r.message.None? && r.status.None?
  {
    Make(CodeText(code), data, None, None)
  }

  /** `Response.error(code, message?, status?)`: the payload is always `null`. */
  function Error(code: string, message: Option<string>, status: Option<int>): (r: Response)
    ensures r.data == Null
    ensures r.code == code && r.message == message && r.status == status
  {
    Make(CodeText(code), Null, message, status)
  }

  /** `toJSON()`: the plain object `{code, data, message, status}`. */
  function ToJson(r: Response): (v: Value)
    ensures v.Obj? && v.fields.Keys == {"code", "data", "message", "status"}
  {
    Obj(map["code" := Str(r.code), "data" := r.data, "message" := OptStr(r.message), "status" := OptNum(r.status)])
  }

  /** Reads an optional string member back. */
  function ReadOptStr(v: Value): Option<Option<string>> {
    match v
    case Undefined => Some(None)
    case Str(s) => Some(Some(s))
    case _ => None
  }

  /** Reads an optional numeric member back. */
  function ReadOptNum(v: Value): Option<Option<int>> {
    match v
    case Undefined => Some(None)
    case Num(n) => Some(Some(n))
    case _ => None
  }

  /** Rebuilds a `Response` from its JSON form, when the object has that shape. */
  function FromJson(v: Value): Option<Response> {
    if v.Obj? && "code" in v.fields && "data" in v.fields && "message" in v.fields && "status" in v.fields
       && v.fields["code"].Str? && ReadOptStr(v.fields["message"]).Some? && ReadOptNum(v.fields["status"]).Some?
    then
      Some(Response(v.fields["code"].s, v.fields["data"],
                    ReadOptStr(v.fields["message"]).value, ReadOptNum(v.fields["status"]).value))
    else
      None
  }

  /** `toJSON()` loses nothing: every field of the instance is recovered from it. */
  lemma ToJsonRoundTrip(r: Response)
    ensures FromJson(ToJson(r)) == Some(r)
  {
  }

  /** With an entry argument, the message and status arguments have no effect. */
  lemma EntryOverridesArguments(c: ResponseCode, data: Value, m1: Option<string>, s1: Option<int>,
                                m2: Option<string>, s2: Option<int>)
    ensures Make(CodeEntry(c), data, m1, s1) == Make(CodeEntry(c), data, m2, s2)
    ensures Make(CodeEntry(c), data, m1, s1) == Make(CodeText(c.code), data, Some(c.message), c.status)
  {
  }

  /** A string code keeps all four arguments exactly; omitted ones stay undefined. */
  lemma TextCodeStoresArguments(code: string, data: Value, message: Option<string>, status: Option<int>)
    ensures ToJson(Make(CodeText(code), data, message, status)).fields ==
            map["code" := Str(code), "data" := data, "message" := OptStr(message), "status" := OptNum(status)]
    ensures ToJson(Make(CodeText(code), Undefined, None, None)).fields["message"] == Undefined
    ensures ToJson(Make(CodeText(code), Undefined, None, None)).fields["status"] == Undefined
  {
  }
}
