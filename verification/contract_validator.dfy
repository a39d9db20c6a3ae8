/**
 * The response-contract validator of the Petstore3 API tests: it checks a
 * response's status code, its content type and its JSON body against the
 * API's schemas, and reports the verdicts with a list of error messages.
 * Schema validation itself is jsonschema's, given here as an oracle.
 */
module ContractValidation {
  import opened Wrappers
  import opened Values
  import opened Text

  /** The schemas the validator loads. */
  datatype SchemaName = PetSchema | ApiResponseSchema | ErrorSchema

  /**
   * jsonschema's `validate(instance, schema)`: `None` when it returns, the
   * message of the `ValidationError` it raises otherwise.
   */
  type Validator = (Value, SchemaName) -> Option<string>

  /** What `response.json()` makes of the body: a JSON value, or a `JSONDecodeError`. */
  datatype Body = Json(data: Value) | NotJson

  /**
   * A response: its status code, its headers keyed by lower-cased name (the
   * way a case-insensitive header dictionary finds them), and its body.
   */
  datatype Response = Response(statusCode: int, headers: map<string, string>, body: Body)

  /** The result dictionary; a `responseData` of `Null` is None. */
  datatype ValidationResult = ValidationResult(
    statusCodeValid: bool,
    contentTypeValid: bool,
    schemaValid: bool,
    responseData: Value,
    errors: seq<string>)

  const JSON_MEDIA_TYPE := "application/json"
  const INVALID_JSON := "Invalid JSON response"

  /** The error recorded for an unexpected status code. */
  function StatusMessage(expected: int, actual: int): string {
    "Expected status " + IntToStr(expected) + ", got " + IntToStr(actual)
  }

  /** The error recorded for a content type that is not JSON. */
  function ContentTypeMessage(contentType: string): string {
    "Expected JSON content type, got " + contentType
  }

  /** A decimal integer holds no comma. */
  lemma IntToStrNoComma(n: int, k: int)
    requires 0 <= k < |IntToStr(n)|
    ensures IntToStr(n)[k] != ','
  {
    if n < 0 {
      assert IntToStr(n) == "-" + NatToStr(-n);
      if k > 0 {
        assert IntToStr(n)[k] == NatToStr(-n)[k - 1];
      }
    }
  }

  /** A status error names both codes: two such messages are equal only for the same pair of codes. */
  lemma StatusMessageInjective(e1: int, a1: int, e2: int, a2: int)
    requires StatusMessage(e1, a1) == StatusMessage(e2, a2)
    ensures e1 == e2 && a1 == a2
  {
    var m := StatusMessage(e1, a1);
    var x1, x2 := IntToStr(e1), IntToStr(e2);
    var y1, y2 := IntToStr(a1), IntToStr(a2);
    assert m == "Expected status " + x1 + ", got " + y1;
    assert m == "Expected status " + x2 + ", got " + y2;
    if |x1| != |x2| {
      var k := if |x1| < |x2| then |x1| else |x2|;
      assert m[16 + k] == ',';
      if |x1| < |x2| {
        IntToStrNoComma(e2, k);
      } else {
        IntToStrNoComma(e1, k);
      }
      assert false;
    }
    assert x1 == m[16..16 + |x1|] == x2;
    assert y1 == m[16 + |x1| + 6..] == y2;
    IntToStrRoundTrip(e1);
    IntToStrRoundTrip(e2);
    IntToStrRoundTrip(a1);
    IntToStrRoundTrip(a2);
  }

  /** `response.headers.get('content-type', '')`. */
  function ContentType(response: Response): (contentType: string)
    ensures "content-type" !in response.headers ==> contentType == ""
    ensures "content-type" in response.headers ==> contentType == response.headers["content-type"]
  {
    if "content-type" in response.headers then response.headers["content-type"] else ""
  }

  /**
   * The schema a decoded body is checked against: the pet schema for a 200
   * answer to a pet request, the error schema for any status from 400 up,
   * and none otherwise.
   */
  function SchemaFor(statusCode: int, schemaType: string): (s: Option<SchemaName>)
    ensures s == Some(PetSchema) <==> statusCode == 200 && schemaType == "pet"
    ensures s == Some(ErrorSchema) <==> statusCode >= 400
    ensures s.None? <==> (statusCode != 200 || schemaType != "pet") && statusCode < 400
    ensures s != Some(ApiResponseSchema)
  {
    if statusCode == 200 && schemaType == "pet" then Some(PetSchema)
    else if statusCode >= 400 then Some(ErrorSchema)
    else None
  }

  class ContractValidator {
    /** jsonschema applied to the loaded schemas. */
    const validate: Validator

    constructor (validate: Validator)
      ensures this.validate == validate
    {
      this.validate := validate;
    }

    /** `validate_pet_schema`: true iff validation against the pet schema raises nothing. */
    function ValidatePetSchema(data: Value): (valid: bool)
      ensures valid <==> validate(data, PetSchema).None?
    {
      validate(data, PetSchema).None?
    }

    /** `validate_api_response_schema`: true iff validation against the API-response schema raises nothing. */
    function ValidateApiResponseSchema(data: Value): (valid: bool)
      ensures valid <==> validate(data, ApiResponseSchema).None?
    {
      validate(data, ApiResponseSchema).None?
    }

    /** `validate_error_schema`: true iff validation against the error schema raises nothing. */
    function ValidateErrorSchema(data: Value): (valid: bool)
      ensures valid <==> validate(data, ErrorSchema).None?
    {
      validate(data, ErrorSchema).None?
    }

    /**
     * `validate_response_contract(response, expected_status, schema_type)`.
     * The status verdict and the content-type verdict are independent; a
     * body is decoded only under a JSON content type, and only a decoded
     * body is checked against a schema. A status mismatch adds one message, then
     * a non-JSON content type or an undecodable body adds one; a failed schema
     * check adds none and only leaves `schemaValid` false.
     */
    method ValidateResponseContract(response: Response, expectedStatus: int, schemaType: string := "pet")
      returns (result: ValidationResult)
      ensures result.statusCodeValid <==> response.statusCode == expectedStatus
      ensures result.contentTypeValid <==> Contains(JSON_MEDIA_TYPE, ContentType(response))
      ensures result.responseData != Null ==> result.contentTypeValid && response.body.Json?
      ensures result.contentTypeValid && response.body.Json? ==> result.responseData == response.body.data
      ensures result.schemaValid <==>
                && result.contentTypeValid
                && response.body.Json?
                && var schema := SchemaFor(response.statusCode, schemaType);
                   schema.Some? ==> validate(response.body.data, schema.value).None?
      ensures result.errors ==
                (if result.statusCodeValid then [] else [StatusMessage(expectedStatus, response.statusCode)])
                + (if !result.contentTypeValid then [ContentTypeMessage(ContentType(response))]
                   else if response.body.NotJson? then [INVALID_JSON]
                   else [])
      ensures |result.errors| <= 2
    {
      result := ValidationResult(response.statusCode == expectedStatus, false, false, Null, []);
      if !result.statusCodeValid {
        result := result.(errors := result.errors + [StatusMessage(expectedStatus, response.statusCode)]);
      }
      var contentType := if "content-type" in response.headers then response.headers["content-type"] else "";
      if Contains(JSON_MEDIA_TYPE, contentType) {
        result := result.(contentTypeValid := true);
        match response.body {
          case Json(data) =>
            result := result.(responseData := data);
            if response.statusCode == 200 && schemaType == "pet" {
              result := result.(schemaValid := ValidatePetSchema(data));
            } else if response.statusCode >= 400 {
              result := result.(schemaValid := ValidateErrorSchema(data));
            } else {
              result := result.(schemaValid := true);
            }
          case NotJson =>
            result := result.(errors := result.errors + [INVALID_JSON]);
        }
      } else {
        result := result.(errors := result.errors + [ContentTypeMessage(contentType)]);
      }
    }
  }
}
