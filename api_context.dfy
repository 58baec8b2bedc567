/**
 * The per-call API context: access token, request id (with masking and lazy
 * generation), dynamic configuration, HTTP headers and an application header.
 */
module Context {
  import opened Wrappers

  /**
   * The ArgumentNullException the constructors throw. The one-string
   * constructor of that exception takes a parameter name, so the text the
   * source passes becomes the exception's ParamName.
   */
  datatype ArgumentError = ArgumentNull(paramName: string)

  const TokenMissing := "AccessToken cannot be null"
  const RequestIdMissing := "RequestId cannot be null"

  /** .NET's `string.IsNullOrEmpty`. */
  predicate IsNullOrEmpty(s: Option<string>)
  {
    s.None? || s.value == ""
  }

  /** What one read of the request id returns, and what the context stores afterwards. */
  datatype RequestIdRead = RequestIdRead(returned: Option<string>, stored: Option<string>)

  /**
   * One read of the request id, given the mask flag, the stored id and the
   * id that would be generated if one is needed. A masked read returns null
   * and stores nothing; an unmasked read returns the stored id, first
   * replacing a null or empty one by the generated id.
   */
  function ReadRequestId(masked: bool, stored: Option<string>, generated: string): (r: RequestIdRead)
    requires generated != ""
    ensures masked ==> r.returned == None && r.stored == stored
    ensures !masked ==> r.returned == r.stored && !IsNullOrEmpty(r.returned)
    ensures !masked && !IsNullOrEmpty(stored) ==> r.returned == stored
    ensures !masked && IsNullOrEmpty(stored) ==> r.returned == Some(generated)
  {
    if masked then RequestIdRead(None, stored)
    else if IsNullOrEmpty(stored) then RequestIdRead(Some(generated), Some(generated))
    else RequestIdRead(stored, stored)
  }

  /**
   * Once an unmasked read has returned an id, every later unmasked read
   * returns the same id and stores nothing new, whatever id it could generate.
   */
  lemma RequestIdIsMemoised(stored: Option<string>, g1: string, g2: string)
    requires g1 != "" && g2 != ""
    ensures var first := ReadRequestId(false, stored, g1);
      var second := ReadRequestId(false, first.stored, g2);
      second == RequestIdRead(first.returned, first.stored)
  {
  }

  /**
   * A masked read leaves a missing id missing; the first unmasked read after
   * it generates the id.
   */
  lemma MaskedReadDefersGeneration(stored: Option<string>, g1: string, g2: string)
    requires g1 != "" && g2 != ""
    requires IsNullOrEmpty(stored)
    ensures var masked := ReadRequestId(true, stored, g1);
      var unmasked := ReadRequestId(false, masked.stored, g2);
      masked.stored == stored && unmasked.returned == Some(g2) && unmasked.stored == Some(g2)
  {
  }

  class ApiContext {
    var token: Option<string>
    var reqId: Option<string>
    var maskReqId: bool
    var dynamicConfig: Option<map<string, string>>
    var httpHeaders: Option<map<string, string>>
    var applicationHeaderValue: object?

    /** The explicit default constructor: every field null, the mask off. */
    constructor ()
      ensures token == None && reqId == None && !maskReqId
      ensures dynamicConfig == None && httpHeaders == None && applicationHeaderValue == null
    {
      token := None;
      reqId := None;
      maskReqId := false;
      dynamicConfig := None;
      httpHeaders := None;
      applicationHeaderValue := null;
    }

    /** The constructor taking an access token: a null or empty token is an ArgumentNullException. */
    static method FromToken(token: Option<string>) returns (r: Result<ApiContext, ArgumentError>)
      ensures r.Failure? <==> IsNullOrEmpty(token)
      ensures r.Failure? ==> r.error == ArgumentNull(TokenMissing)
      ensures r.Success? ==> fresh(r.value) && r.value.AccessToken() == token
      ensures r.Success? ==> r.value.reqId == None && !r.value.maskReqId
      ensures r.Success? ==> r.value.dynamicConfig == None && r.value.httpHeaders == None
      ensures r.Success? ==> r.value.applicationHeaderValue == null
    {
      if IsNullOrEmpty(token) {
        return Failure(ArgumentNull(TokenMissing));
      }
      var c := new ApiContext();
      c.token := token;
      r := Success(c);
    }

    /**
     * The constructor taking an access token and a request id: the token is
     * checked first, then a null or empty request id is an ArgumentNullException.
     */
    static method FromTokenAndRequestId(token: Option<string>, requestId: Option<string>)
      returns (r: Result<ApiContext, ArgumentError>)
      ensures r.Failure? <==> IsNullOrEmpty(token) || IsNullOrEmpty(requestId)
      ensures IsNullOrEmpty(token) ==> r == Failure(ArgumentNull(TokenMissing))
      ensures !IsNullOrEmpty(token) && IsNullOrEmpty(requestId) ==> r == Failure(ArgumentNull(RequestIdMissing))
      ensures r.Success? ==> fresh(r.value) && r.value.AccessToken() == token && r.value.reqId == requestId
      ensures r.Success? ==> !r.value.maskReqId
      ensures r.Success? ==> r.value.dynamicConfig == None && r.value.httpHeaders == None
      ensures r.Success? ==> r.value.applicationHeaderValue == null
    {
      r := FromToken(token);
      if r.Failure? {
        return;
      }
      if IsNullOrEmpty(requestId) {
        return Failure(ArgumentNull(RequestIdMissing));
      }
      r.value.reqId := requestId;
    }

    /** The access token; no member other than the constructors assigns it. */
    function AccessToken(): Option<string>
      reads this
    {
      token
    }

    function MaskRequestId(): bool
      reads this
    {
      maskReqId
    }

    method SetMaskRequestId(value: bool)
      modifies this`maskReqId
      ensures MaskRequestId() == value
    {
      maskReqId := value;
    }

    /**
     * The request id getter. `generated` stands for the string of a freshly
     * generated GUID; it is used only when the getter stores a new id.
     */
    method RequestId(generated: string) returns (id: Option<string>)
      requires generated != ""
      modifies this`reqId
      ensures RequestIdRead(id, reqId) == ReadRequestId(maskReqId, old(reqId), generated)
    {
      var returnId: Option<string> := None;
      if !MaskRequestId() {
        if IsNullOrEmpty(reqId) {
          reqId := Some(generated);
        }
        returnId := reqId;
      }
      id := returnId;
    }

    function Config(): Option<map<string, string>>
      reads this
    {
      dynamicConfig
    }

    method SetConfig(value: Option<map<string, string>>)
      modifies this`dynamicConfig
      ensures Config() == value
    {
      dynamicConfig := value;
    }

    function HeadersMap(): Option<map<string, string>>
      reads this
    {
      httpHeaders
    }

    method SetHeadersMap(value: Option<map<string, string>>)
      modifies this`httpHeaders
      ensures HeadersMap() == value
    {
      httpHeaders := value;
    }

    function ApplicationHeader(): object?
      reads this
    {
      applicationHeaderValue
    }

    method SetApplicationHeader(value: object?)
      modifies this`applicationHeaderValue
      ensures ApplicationHeader() == value
    {
      applicationHeaderValue := value;
    }
  }
}
