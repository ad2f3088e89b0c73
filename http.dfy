/**
 * The part of net/http and mime/multipart that the Salesforce client uses,
 * with the network abstracted: a request is reduced to the message it puts on
 * the wire, and an http.Client is a function from that message to what came
 * back. Timeouts, redirects and the byte-level multipart encoding are not
 * modelled; a multipart body is its ordered list of form fields.
 */
module Http {
  import opened Wrappers

  /** One part of a multipart/form-data body: a form field name and its value. */
  datatype FormField = FormField(name: string, value: string)

  /** A request body: none (nil, as for a GET), or a multipart form as its ordered fields. */
  datatype Body = NoBody | MultipartForm(fields: seq<FormField>)

  /** What a request puts on the wire. Header keys are already in canonical form. */
  datatype Message = Message(verb: string, url: string, header: map<string, string>, body: Body)

  /**
   * What sending a message yields: the request could not be made or sent (no
   * response), or a response arrived with its status code, the body as far as
   * it could be read, and the error that cut reading short, if any.
   */
  datatype Outcome =
    | TransportFailed(reason: string)
    | Received(status: nat, body: string, readFailure: Option<string>)

  /** The network as an http.Client sees it: the outcome of sending each message. */
  type Transport = Message -> Outcome

  const StatusOK: nat := 200

  /** Characters that force a multipart boundary to be quoted in the Content-Type header. */
  const BoundarySpecials: string := "()<>@,;:\\\"/[]?= "

  const FormDataPrefix: string := "multipart/form-data; boundary="

  /** multipart.Writer.FormDataContentType: the boundary is quoted when it holds a special character. */
  function FormDataContentType(boundary: string): string {
    if exists i :: 0 <= i < |boundary| && boundary[i] in BoundarySpecials
    then FormDataPrefix + "\"" + boundary + "\""
    else FormDataPrefix + boundary
  }

  /** The boundary parameter a multipart/form-data Content-Type names, with its quotes removed. */
  function BoundaryOf(contentType: string): Option<string> {
    if |contentType| < |FormDataPrefix| || contentType[..|FormDataPrefix|] != FormDataPrefix then None
    else
      var v := contentType[|FormDataPrefix|..];
      if 2 <= |v| && v[0] == '"' && v[|v| - 1] == '"' then Some(v[1..|v| - 1]) else Some(v)
  }

  /**
   * The Content-Type names the writer's boundary, which reads back verbatim,
   * and the value is quoted exactly when the boundary holds a special character.
   */
  lemma FormDataContentTypeNamesBoundary(boundary: string)
    ensures BoundaryOf(FormDataContentType(boundary)) == Some(boundary)
    ensures var v := FormDataContentType(boundary)[|FormDataPrefix|..];
      (0 < |v| && v[0] == '"') <==> exists i :: 0 <= i < |boundary| && boundary[i] in BoundarySpecials
  {
    var t := FormDataContentType(boundary);
    assert t[..|FormDataPrefix|] == FormDataPrefix;
    var v := t[|FormDataPrefix|..];
    if exists i :: 0 <= i < |boundary| && boundary[i] in BoundarySpecials {
      assert v == "\"" + boundary + "\"";
      assert v[1..|v| - 1] == boundary;
    } else {
      assert v == boundary;
      assert '"' in BoundarySpecials;
      if 0 < |v| {
        assert boundary[0] !in BoundarySpecials;
      }
    }
  }

  /** An http.Request: method, URL and body are fixed when it is made; its header can be set. */
  class Request {
    const verb: string
    const url: string
    const body: Body
    var header: map<string, string>

    /** http.NewRequest: a request with an empty header. */
    constructor (verb: string, url: string, body: Body)
      ensures this.verb == verb && this.url == url && this.body == body
      ensures header == map[]
    {
      this.verb := verb;
      this.url := url;
      this.body := body;
      header := map[];
    }

    /** Header.Set: the key now has exactly this value; every other key keeps its own. */
    method SetHeader(key: string, value: string)
      modifies this
      ensures header == old(header)[key := value]
    {
      header := header[key := value];
    }

    /** The message this request puts on the wire when it is sent. */
    function Wire(): Message
      reads this
    {
      Message(verb, url, header, body)
    }
  }

  /** A multipart.Writer: form fields are written one after another, then the writer is closed. */
  class FormWriter {
    const boundary: string
    var fields: seq<FormField>
    var closed: bool

    /** multipart.NewWriter, with the random boundary passed in. */
    constructor (boundary: string)
      ensures this.boundary == boundary && fields == [] && !closed
    {
      this.boundary := boundary;
      fields := [];
      closed := false;
    }

    /** CreateFormField(name) followed by copying value into the new part. */
    method WriteField(name: string, value: string)
      requires !closed
      modifies this
      ensures fields == old(fields) + [FormField(name, value)]
      ensures closed == old(closed)
    {
      fields := fields + [FormField(name, value)];
    }

    /** Close: writes the closing boundary; no field follows. */
    method Close()
      modifies this
      ensures closed && fields == old(fields)
    {
      closed := true;
    }

    function ContentType(): string
      reads this
    {
      FormDataContentType(boundary)
    }
  }
}
