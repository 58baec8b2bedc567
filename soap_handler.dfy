/**
 * The base SOAP pre-handler: it wraps a raw XML body fragment, an optional
 * header fragment and optional namespace attributes in a SOAP 1.1 envelope
 * (section 4.1.2 of the W3C SOAP 1.1 Note gives the envelope namespace) and
 * reports the endpoint, an empty HTTP header map and no credential.
 */
module SoapHandler {
  import opened Wrappers
  import opened Formatting

  // The long literals below are written in short pieces joined by `+`. The
  // strings are the same, but the verifier reasons about a chain of short
  // literals far more cheaply than about one literal of some eighty characters.
  // PayloadWithAllFragments and PayloadWithNoFragments spell out the full text.

  /** The SOAP 1.1 envelope namespace, http://schemas.xmlsoap.org/soap/envelope/. */
  const EnvelopeNamespace := "http://" + "schemas.xmlsoap.org" + "/soap/envelope/"

  // The plain text around the format items of the start templates.
  const EnvelopeOpen := "<soapenv:Envelope" + " xmlns:soapenv=\"" + EnvelopeNamespace + "\" "
  const HeaderOpen := "<soapenv:Header>"
  const BodyOpen := "<soapenv:Body>"

  // The six format strings of the handler: the start templates each hold one format item.
  const SoapEnvelopeStartTemplate := EnvelopeOpen + "{0}" + ">"
  const SoapEnvelopeEnd := "</soapenv:Envelope>"
  const SoapHeaderStartTemplate := HeaderOpen + "{1}"
  const SoapHeaderEnd := "</soapenv:Header>"
  const SoapBodyStartTemplate := BodyOpen + "{2}"
  const SoapBodyEnd := "</soapenv:Body>"

  /** Configuration key of the endpoint URL. */
  const EndpointConfig := "endpoint"

  /** Number of characters the payload has besides its three slots. */
  const FixedLength := 158

  /** A credential of the SDK; the credential classes are not part of this model. */
  type Credential(==)

  datatype ConfigError = KeyNotFound(key: string)

  /** What a slot of the envelope holds: the fragment itself, or the format item left in when it is null. */
  function Slot(fragment: Option<string>, k: nat): string
    requires k < 10
  {
    match fragment
    case Some(s) => s
    case None => Placeholder(k)
  }

  /** Length of a slot: the fragment's length, or 3 for a format item left in. */
  function SlotLength(fragment: Option<string>): nat
  {
    match fragment
    case Some(s) => |s|
    case None => 3
  }

  function SoapEnvelopeStart(namespaces: Option<string>): string
  {
    if namespaces.Some? then Format(SoapEnvelopeStartTemplate, [namespaces])
    else SoapEnvelopeStartTemplate
  }

  function SoapHeaderStart(header: Option<string>): string
  {
    if header.Some? then Format(SoapHeaderStartTemplate, [None, header])
    else SoapHeaderStartTemplate
  }

  function SoapBodyStart(rawPayload: Option<string>): string
  {
    if rawPayload.Some? then Format(SoapBodyStartTemplate, [None, None, rawPayload])
    else SoapBodyStartTemplate
  }

  /** The payload: the six pieces in the order the handler appends them. */
  function Payload(namespaces: Option<string>, header: Option<string>, rawPayload: Option<string>): string
  {
    SoapEnvelopeStart(namespaces) + SoapHeaderStart(header) + SoapHeaderEnd
    + SoapBodyStart(rawPayload) + SoapBodyEnd + SoapEnvelopeEnd
  }

  /** The envelope written out directly, slot by slot: the reference form of the payload. */
  function Envelope(namespaces: Option<string>, header: Option<string>, rawPayload: Option<string>): string
  {
    EnvelopeOpen + Slot(namespaces, 0) + ">"
    + HeaderOpen + Slot(header, 1) + SoapHeaderEnd
    + BodyOpen + Slot(rawPayload, 2) + SoapBodyEnd
    + SoapEnvelopeEnd
  }

  /** Position in the payload where the header end tag starts: right after the header slot. */
  function HeaderEndAt(namespaces: Option<string>, header: Option<string>): nat
  {
    |EnvelopeOpen + Slot(namespaces, 0) + ">" + HeaderOpen + Slot(header, 1)|
  }

  /** The text around the format items holds no braces. */
  lemma OpenTagsHaveNoBraces()
    ensures NoBraces(EnvelopeOpen) && NoBraces(HeaderOpen) && NoBraces(BodyOpen)
    ensures NoBraces(">") && NoBraces("")
  {
    NoBracesConcat("http://", "schemas.xmlsoap.org");
    NoBracesConcat("http://" + "schemas.xmlsoap.org", "/soap/envelope/");
    NoBracesConcat("<soapenv:Envelope", " xmlns:soapenv=\"");
    NoBracesConcat("<soapenv:Envelope" + " xmlns:soapenv=\"", EnvelopeNamespace);
    NoBracesConcat("<soapenv:Envelope" + " xmlns:soapenv=\"" + EnvelopeNamespace, "\" ");
  }

  lemma EnvelopeStartForm(namespaces: Option<string>)
    ensures SoapEnvelopeStart(namespaces) == EnvelopeOpen + Slot(namespaces, 0) + ">"
  {
    assert "{0}" == Placeholder(0);
    OpenTagsHaveNoBraces();
    if namespaces.Some? {
      FormatSingleItem(EnvelopeOpen, 0, ">", [namespaces]);
    }
  }

  lemma HeaderStartForm(header: Option<string>)
    ensures SoapHeaderStart(header) == HeaderOpen + Slot(header, 1)
  {
    assert "{1}" == Placeholder(1);
    assert SoapHeaderStartTemplate == HeaderOpen + Placeholder(1) + "";
    OpenTagsHaveNoBraces();
    if header.Some? {
      FormatSingleItem(HeaderOpen, 1, "", [None, header]);
    }
  }

  lemma BodyStartForm(rawPayload: Option<string>)
    ensures SoapBodyStart(rawPayload) == BodyOpen + Slot(rawPayload, 2)
  {
    assert "{2}" == Placeholder(2);
    assert SoapBodyStartTemplate == BodyOpen + Placeholder(2) + "";
    OpenTagsHaveNoBraces();
    if rawPayload.Some? {
      FormatSingleItem(BodyOpen, 2, "", [None, None, rawPayload]);
    }
  }

  /**
   * The payload is the envelope with each non-null fragment inserted verbatim
   * and, for each null fragment, its format item `{0}`, `{1}` or `{2}` left in.
   */
  lemma PayloadIsEnvelope(namespaces: Option<string>, header: Option<string>, rawPayload: Option<string>)
    ensures Payload(namespaces, header, rawPayload) == Envelope(namespaces, header, rawPayload)
  {
    EnvelopeStartForm(namespaces);
    HeaderStartForm(header);
    BodyStartForm(rawPayload);
  }

  /** With all three fragments present, the payload is the literal SOAP envelope around them. */
  lemma PayloadWithAllFragments(n: string, h: string, b: string)
    ensures Payload(Some(n), Some(h), Some(b))
         == ("<soapenv:Envelope" + " xmlns:soapenv=\"" + ("http://" + "schemas.xmlsoap.org" + "/soap/envelope/") + "\" ")
            + n + ">"
            + "<soapenv:Header>" + h + "</soapenv:Header>"
            + "<soapenv:Body>" + b + "</soapenv:Body>"
            + "</soapenv:Envelope>"
  {
    PayloadIsEnvelope(Some(n), Some(h), Some(b));
  }

  /** With all three fragments null, the payload still holds the three format items. */
  lemma PayloadWithNoFragments()
    ensures Payload(None, None, None)
         == ("<soapenv:Envelope" + " xmlns:soapenv=\"" + ("http://" + "schemas.xmlsoap.org" + "/soap/envelope/") + "\" ")
            + "{0}" + ">"
            + "<soapenv:Header>" + "{1}" + "</soapenv:Header>"
            + "<soapenv:Body>" + "{2}" + "</soapenv:Body>"
            + "</soapenv:Envelope>"
  {
    PayloadIsEnvelope(None, None, None);
    assert Placeholder(0) == "{0}" && Placeholder(1) == "{1}" && Placeholder(2) == "{2}";
  }

  /** The payload's length is the fixed text plus the three slots. */
  lemma PayloadLength(namespaces: Option<string>, header: Option<string>, rawPayload: Option<string>)
    ensures |Payload(namespaces, header, rawPayload)|
         == FixedLength + SlotLength(namespaces) + SlotLength(header) + SlotLength(rawPayload)
  {
    PayloadIsEnvelope(namespaces, header, rawPayload);
  }

  /** A null fragment and an empty fragment give different payloads, in each of the three slots. */
  lemma NullDiffersFromEmpty(namespaces: Option<string>, header: Option<string>, rawPayload: Option<string>)
    ensures Payload(None, header, rawPayload) != Payload(Some(""), header, rawPayload)
    ensures Payload(namespaces, None, rawPayload) != Payload(namespaces, Some(""), rawPayload)
    ensures Payload(namespaces, header, None) != Payload(namespaces, header, Some(""))
  {
    PayloadLength(None, header, rawPayload);
    PayloadLength(Some(""), header, rawPayload);
    PayloadLength(namespaces, None, rawPayload);
    PayloadLength(namespaces, Some(""), rawPayload);
    PayloadLength(namespaces, header, None);
    PayloadLength(namespaces, header, Some(""));
  }

  /** The envelope opens with the envelope start tag and its namespace declaration. */
  lemma EnvelopeOpensWithStartTag(namespaces: Option<string>, header: Option<string>, rawPayload: Option<string>)
    ensures EnvelopeOpen <= Envelope(namespaces, header, rawPayload)
  {
    ChainPrefix(EnvelopeOpen, Slot(namespaces, 0), ">", HeaderOpen, Slot(header, 1),
                SoapHeaderEnd, BodyOpen, Slot(rawPayload, 2), SoapBodyEnd, SoapEnvelopeEnd);
  }

  /** The envelope closes with the envelope end tag. */
  lemma EnvelopeClosesWithEndTag(namespaces: Option<string>, header: Option<string>, rawPayload: Option<string>)
    ensures var p := Envelope(namespaces, header, rawPayload);
      |SoapEnvelopeEnd| <= |p| && p[|p| - |SoapEnvelopeEnd|..] == SoapEnvelopeEnd
  {
    ChainSuffix(EnvelopeOpen + Slot(namespaces, 0) + ">" + HeaderOpen + Slot(header, 1)
                + SoapHeaderEnd + BodyOpen + Slot(rawPayload, 2) + SoapBodyEnd, SoapEnvelopeEnd);
  }

  /**
   * In the envelope, the header end tag is immediately followed by the body
   * start tag, right after the header slot.
   */
  lemma EnvelopeHeaderPrecedesBody(namespaces: Option<string>, header: Option<string>, rawPayload: Option<string>)
    ensures var p := Envelope(namespaces, header, rawPayload);
      var i := HeaderEndAt(namespaces, header);
      && i + |SoapHeaderEnd| + |BodyOpen| <= |p|
      && p[i..i + |SoapHeaderEnd|] == SoapHeaderEnd
      && p[i + |SoapHeaderEnd|..i + |SoapHeaderEnd| + |BodyOpen|] == BodyOpen
  {
    ChainMiddle(EnvelopeOpen, Slot(namespaces, 0), ">", HeaderOpen, Slot(header, 1),
                SoapHeaderEnd, BodyOpen, Slot(rawPayload, 2), SoapBodyEnd, SoapEnvelopeEnd);
  }

  // Where the parts of a ten-part concatenation, grouped as the envelope's is, sit in it.

  lemma ChainPrefix(o: string, s0: string, gt: string, ho: string, s1: string,
                    he: string, bo: string, s2: string, be: string, ee: string)
    ensures o <= o + s0 + gt + ho + s1 + he + bo + s2 + be + ee
  {
    assert o + s0 + gt + ho + s1 + he + bo + s2 + be + ee == o + (s0 + gt + ho + s1 + he + bo + s2 + be + ee);
  }

  lemma ChainSuffix(a: string, ee: string)
    ensures var p := a + ee; |ee| <= |p| && p[|p| - |ee|..] == ee
  {
  }

  lemma ChainMiddle(o: string, s0: string, gt: string, ho: string, s1: string,
                    he: string, bo: string, s2: string, be: string, ee: string)
    ensures var p := o + s0 + gt + ho + s1 + he + bo + s2 + be + ee;
      var i := |o + s0 + gt + ho + s1|;
      && i + |he| + |bo| <= |p|
      && p[i..i + |he|] == he
      && p[i + |he|..i + |he| + |bo|] == bo
  {
    var a := o + s0 + gt + ho + s1;
    assert o + s0 + gt + ho + s1 + he + bo + s2 + be + ee == a + he + (bo + (s2 + be + ee));
  }

  /** The base SOAP handler: the fragments and the configuration it was built with. */
  class DefaultSoapApiCallHandler {
    var rawPayload: Option<string>
    var config: map<string, string>
    var elementHeader: Option<string>
    var attributeNamespaces: Option<string>

    /**
     * Stores the three fragments verbatim; uses `config` when it is given and
     * otherwise `globalProperties`, the process-wide configuration.
     */
    constructor (config: Option<map<string, string>>, globalProperties: map<string, string>,
                 rawPayload: Option<string>, attributesNamespace: Option<string>, headerString: Option<string>)
      ensures this.rawPayload == rawPayload
      ensures this.attributeNamespaces == attributesNamespace
      ensures this.elementHeader == headerString
      ensures this.config == if config.Some? then config.value else globalProperties
    {
      this.rawPayload := rawPayload;
      this.attributeNamespaces := attributesNamespace;
      this.elementHeader := headerString;
      this.config := if config.Some? then config.value else globalProperties;
    }

    function HeaderElement(): Option<string>
      reads this
    {
      elementHeader
    }

    method SetHeaderElement(value: Option<string>)
      modifies this`elementHeader
      ensures HeaderElement() == value
    {
      elementHeader := value;
    }

    function NamespaceAttributes(): Option<string>
      reads this
    {
      attributeNamespaces
    }

    method SetNamespaceAttributes(value: Option<string>)
      modifies this`attributeNamespaces
      ensures NamespaceAttributes() == value
    {
      attributeNamespaces := value;
    }

    /** The HTTP headers of the call: none, the SOAP envelope carries them. */
    method GetHeaderMap() returns (headers: map<string, string>)
      ensures headers == map[]
    {
      headers := map[];
    }

    /**
     * Appends the six pieces in order. The result is the envelope around the
     * current fragments; nothing is modified, so every call returns the same.
     */
    method GetPayload() returns (payload: string)
      ensures payload == Envelope(attributeNamespaces, elementHeader, rawPayload)
    {
      var envelopeStart := SoapEnvelopeStart(NamespaceAttributes());
      payload := "";
      payload := payload + envelopeStart;
      assert payload == envelopeStart;
      payload := payload + SoapHeaderStart(HeaderElement());
      payload := payload + SoapHeaderEnd;
      payload := payload + SoapBodyStart(rawPayload);
      payload := payload + SoapBodyEnd;
      payload := payload + SoapEnvelopeEnd;
      assert payload == Payload(attributeNamespaces, elementHeader, rawPayload);
      PayloadIsEnvelope(attributeNamespaces, elementHeader, rawPayload);
    }

    /** The configured endpoint; a missing key is the dictionary's KeyNotFoundException. */
    method GetEndpoint() returns (endpoint: Result<string, ConfigError>)
      ensures endpoint.Success? <==> EndpointConfig in config
      ensures endpoint.Success? ==> endpoint.value == config[EndpointConfig]
      ensures endpoint.Failure? ==> endpoint.error == KeyNotFound(EndpointConfig)
    {
      if EndpointConfig in config {
        endpoint := Success(config[EndpointConfig]);
      } else {
        endpoint := Failure(KeyNotFound(EndpointConfig));
      }
    }

    /** The base SOAP handler has no credential. */
    method GetCredential() returns (credential: Option<Credential>)
      ensures credential == None
    {
      credential := None;
    }
  }
}
