/**
 * The Petstore3 client: the `Pet` record with its defaults and its request
 * payload, and the requests the client shapes for the pet endpoints. Sending
 * a request is the network's business; each client method returns the
 * request it would hand to the HTTP session.
 */
module Petstore {
  import opened Wrappers
  import opened Values
  import opened Text

  const DEFAULT_BASE_URL := "https://petstore3.swagger.io/api/v3"

  /** The category a pet built without one gets. */
  const DEFAULT_CATEGORY := Dict(map["id" := Int(1), "name" := Str("default")])

  /** The keys `to_dict` always writes; `id` is added when it is set. */
  const PAYLOAD_KEYS: set<string> := {"name", "category", "photoUrls", "tags", "status"}

  /** The headers the client sets on its session. */
  const CLIENT_HEADERS: map<string, string> := map[
    "Content-Type" := "application/json",
    "Accept" := "application/json",
    "User-Agent" := "Petstore3-API-Test-Client/1.0"]

  /** The fields of a `Pet`; `Null` is Python's None. */
  datatype PetRecord = PetRecord(id: Value, name: Value, category: Value, photoUrls: Value, tags: Value, status: Value)

  /** A pet whose optional collections have been filled in. */
  predicate Initialised(r: PetRecord) {
    !r.category.Null? && !r.photoUrls.Null? && !r.tags.Null?
  }

  /**
   * `__post_init__`: a None photo list or tag list becomes an empty list, a
   * None category the default one; everything else is kept.
   */
  function PostInit(r: PetRecord): (p: PetRecord)
    ensures Initialised(p)
    ensures r.photoUrls.Null? ==> p.photoUrls == List([])
    ensures r.category.Null? ==> p.category == DEFAULT_CATEGORY
    ensures r.tags.Null? ==> p.tags == List([])
    ensures !r.photoUrls.Null? ==> p.photoUrls == r.photoUrls
    ensures !r.category.Null? ==> p.category == r.category
    ensures !r.tags.Null? ==> p.tags == r.tags
    ensures p.id == r.id && p.name == r.name && p.status == r.status
  {
    r.(photoUrls := if r.photoUrls.Null? then List([]) else r.photoUrls,
       category := if r.category.Null? then DEFAULT_CATEGORY else r.category,
       tags := if r.tags.Null? then List([]) else r.tags)
  }

  /** Filling in the defaults twice is filling them in once; a filled-in pet is left alone. */
  lemma PostInitIdempotent(r: PetRecord)
    ensures PostInit(PostInit(r)) == PostInit(r)
    ensures Initialised(r) ==> PostInit(r) == r
  {
  }

  /**
   * `to_dict()`: the five fields under their own names, and `id` exactly
   * when it is not None.
   */
  function Payload(r: PetRecord): (data: map<string, Value>)
    ensures r.id.Null? ==> data.Keys == PAYLOAD_KEYS
    ensures !r.id.Null? ==> data.Keys == PAYLOAD_KEYS + {"id"}
    ensures data["name"] == r.name && data["category"] == r.category && data["photoUrls"] == r.photoUrls
    ensures data["tags"] == r.tags && data["status"] == r.status
    ensures "id" in data ==> data["id"] == r.id
  {
    var data := map["name" := r.name, "category" := r.category, "photoUrls" := r.photoUrls,
                    "tags" := r.tags, "status" := r.status];
    if r.id.Null? then data else data["id" := r.id]
  }

  /** A keyword argument, or its default when it is not given. */
  function Keyword(kwargs: map<string, Value>, name: string, default: Value): Value {
    if name in kwargs then kwargs[name] else default
  }

  /**
   * `Pet(**kwargs)`: each field from its keyword or its default (`id`,
   * `category`, `photoUrls` and `tags` None, `name` empty, `status`
   * "available"), then `__post_init__`; an unknown keyword is a TypeError.
   */
  function Construct(kwargs: map<string, Value>): (r: Result<PetRecord, PyError>)
    ensures r.Failure? <==> !(kwargs.Keys <= PAYLOAD_KEYS + {"id"})
    ensures r.Success? ==> Initialised(r.value)
    ensures r.Success? && "name" !in kwargs ==> r.value.name == Str("")
    ensures r.Success? && "status" !in kwargs ==> r.value.status == Str("available")
    ensures r.Success? && "id" !in kwargs ==> r.value.id == Null
    ensures r.Success? && "id" in kwargs ==> r.value.id == kwargs["id"]
    ensures r.Success? && "name" in kwargs ==> r.value.name == kwargs["name"]
    ensures r.Success? && "status" in kwargs ==> r.value.status == kwargs["status"]
    ensures r.Success? && "category" in kwargs && kwargs["category"] != Null ==> r.value.category == kwargs["category"]
    ensures r.Success? && "photoUrls" in kwargs && kwargs["photoUrls"] != Null ==> r.value.photoUrls == kwargs["photoUrls"]
    ensures r.Success? && "tags" in kwargs && kwargs["tags"] != Null ==> r.value.tags == kwargs["tags"]
    ensures r.Success? && ("category" !in kwargs || kwargs["category"] == Null) ==> r.value.category == DEFAULT_CATEGORY
    ensures r.Success? && ("photoUrls" !in kwargs || kwargs["photoUrls"] == Null) ==> r.value.photoUrls == List([])
    ensures r.Success? && ("tags" !in kwargs || kwargs["tags"] == Null) ==> r.value.tags == List([])
  {
    if kwargs.Keys <= PAYLOAD_KEYS + {"id"} then
      Success(PostInit(PetRecord(
        Keyword(kwargs, "id", Null), Keyword(kwargs, "name", Str("")), Keyword(kwargs, "category", Null),
        Keyword(kwargs, "photoUrls", Null), Keyword(kwargs, "tags", Null), Keyword(kwargs, "status", Str("available")))))
    else Failure(TypeError)
  }

  /** Rebuilding a pet from its payload gives the same pet: `Pet(**pet.to_dict()) == pet`. */
  lemma PayloadRoundTrip(r: PetRecord)
    requires Initialised(r)
    ensures Construct(Payload(r)) == Success(r)
  {
    var data := Payload(r);
    assert Keyword(data, "id", Null) == r.id;
  }

  /** The HTTP methods the client uses. */
  datatype Verb = Get | Post | Put | Delete

  /**
   * A request as handed to the session: per-request headers, query
   * parameters, a JSON body, form fields, and the names of the file fields.
   */
  datatype Request = Request(
    verb: Verb,
    url: string,
    headers: map<string, string>,
    params: map<string, string>,
    json: Option<map<string, Value>>,
    form: map<string, string>,
    files: set<string>)

  /** `f"{base_url}/pet/{pet_id}"`. */
  function PetUrl(baseUrl: string, petId: int): string {
    baseUrl + "/pet/" + IntToStr(petId)
  }

  /** A pet's URL is the base URL, "/pet/", and the decimal id, which reads back as the id. */
  lemma PetUrlRoundTrip(baseUrl: string, petId: int)
    ensures var url := PetUrl(baseUrl, petId);
            && url[..|baseUrl| + 5] == baseUrl + "/pet/"
            && ParseInt(url[|baseUrl| + 5..]) == Some(petId)
  {
    var url := PetUrl(baseUrl, petId);
    assert url[|baseUrl| + 5..] == IntToStr(petId);
    IntToStrRoundTrip(petId);
  }

  /** Two pets share a URL only when they share an id. */
  lemma PetUrlInjective(baseUrl: string, i: int, j: int)
    requires PetUrl(baseUrl, i) == PetUrl(baseUrl, j)
    ensures i == j
  {
    PetUrlRoundTrip(baseUrl, i);
    PetUrlRoundTrip(baseUrl, j);
  }

  /**
   * A map holding `key` only when `value` is given and non-empty: the truth
   * test the client applies to every optional header and form field.
   */
  function OptionalEntry(key: string, value: Option<string>): (m: map<string, string>)
    ensures key in m <==> value.Some? && value.value != ""
    ensures m.Keys <= {key}
    ensures key in m ==> m[key] == value.value
  {
    if value.Some? && value.value != "" then map[key := value.value] else map[]
  }

  /** Lines 90-92: the extra headers of `delete_pet`. */
  function DeleteHeaders(apiKey: Option<string>): (h: map<string, string>)
    ensures "api_key" in h <==> apiKey.Some? && apiKey.value != ""
    ensures h.Keys <= {"api_key"}
    ensures "api_key" in h ==> h["api_key"] == apiKey.value
  {
    OptionalEntry("api_key", apiKey)
  }

  /** Lines 116-118: the form fields of `upload_pet_image`. */
  function UploadForm(additionalMetadata: Option<string>): (data: map<string, string>)
    ensures "additionalMetadata" in data <==> additionalMetadata.Some? && additionalMetadata.value != ""
    ensures data.Keys <= {"additionalMetadata"}
    ensures "additionalMetadata" in data ==> data["additionalMetadata"] == additionalMetadata.value
  {
    OptionalEntry("additionalMetadata", additionalMetadata)
  }

  /** Line 121: the session headers without any spelling of Content-Type. */
  function UploadHeaders(session: map<string, string>): (h: map<string, string>)
    ensures forall k :: k in h <==> k in session && Lower(k) != "content-type"
    ensures forall k :: k in h ==> h[k] == session[k]
  {
    map k | k in session && Lower(k) != "content-type" :: session[k]
  }

  /** Filtering the upload headers again changes nothing. */
  lemma UploadHeadersIdempotent(session: map<string, string>)
    ensures UploadHeaders(UploadHeaders(session)) == UploadHeaders(session)
  {
  }

  /** For the client's own headers, an upload keeps Accept and User-Agent and drops Content-Type. */
  lemma ClientUploadHeaders()
    ensures UploadHeaders(CLIENT_HEADERS)
            == map["Accept" := "application/json", "User-Agent" := "Petstore3-API-Test-Client/1.0"]
  {
    assert Lower("Content-Type") == "content-type";
    assert Lower("Accept") == "accept";
    assert Lower("User-Agent") == "user-agent";
  }

  class Pet {
    var id: Value
    var name: Value
    var category: Value
    var photoUrls: Value
    var tags: Value
    var status: Value

    function Fields(): PetRecord
      reads this
    {
      PetRecord(id, name, category, photoUrls, tags, status)
    }

    /** The dataclass constructor: the given fields, then `__post_init__`. */
    constructor (id: Value := Null, name: Value := Str(""), category: Value := Null,
                 photoUrls: Value := Null, tags: Value := Null, status: Value := Str("available"))
      ensures Fields() == PostInit(PetRecord(id, name, category, photoUrls, tags, status))
    {
      this.id := id;
      this.name := name;
      this.category := category;
      this.photoUrls := photoUrls;
      this.tags := tags;
      this.status := status;
      new;
      PostInitialise();
    }

    /** `__post_init__` (lines 22-28), filling in the defaults in place. */
    method PostInitialise()
      modifies this
      ensures Fields() == PostInit(old(Fields()))
    {
      if photoUrls.Null? {
        photoUrls := List([]);
      }
      if category.Null? {
        category := DEFAULT_CATEGORY;
      }
      if tags.Null? {
        tags := List([]);
      }
    }

    /** `to_dict()` (lines 30-41). */
    method ToDict() returns (data: map<string, Value>)
      ensures data == Payload(Fields())
    {
      data := map["name" := name, "category" := category, "photoUrls" := photoUrls, "tags" := tags, "status" := status];
      if !id.Null? {
        data := data["id" := id];
      }
    }
  }

  class Petstore3APIClient {
    const baseUrl: string
    const sessionHeaders: map<string, string>

    /** `__init__(base_url)`: the session carries the client's JSON headers. */
    constructor (baseUrl: string := DEFAULT_BASE_URL)
      ensures this.baseUrl == baseUrl && sessionHeaders == CLIENT_HEADERS
    {
      this.baseUrl := baseUrl;
      sessionHeaders := CLIENT_HEADERS;
    }

    /** `add_pet(pet)`: POST the pet's payload to "/pet". */
    method AddPet(pet: Pet) returns (req: Request)
      ensures req.verb == Post && req.url == baseUrl + "/pet"
      ensures req.json == Some(Payload(pet.Fields()))
      ensures req.headers == map[] && req.params == map[] && req.form == map[] && req.files == {}
    {
      var payload := pet.ToDict();
      req := Request(Post, baseUrl + "/pet", map[], map[], Some(payload), map[], {});
    }

    /** `get_pet_by_id(pet_id)`: GET the pet's URL. */
    method GetPetById(petId: int) returns (req: Request)
      ensures req.verb == Get && req.url == PetUrl(baseUrl, petId)
      ensures req.headers == map[] && req.params == map[] && req.json.None? && req.form == map[] && req.files == {}
    {
      req := Request(Get, baseUrl + "/pet/" + IntToStr(petId), map[], map[], None, map[], {});
    }

    /** `update_pet(pet)`: PUT the pet's payload to "/pet". */
    method UpdatePet(pet: Pet) returns (req: Request)
      ensures req.verb == Put && req.url == baseUrl + "/pet"
      ensures req.json == Some(Payload(pet.Fields()))
      ensures req.headers == map[] && req.params == map[] && req.form == map[] && req.files == {}
    {
      var payload := pet.ToDict();
      req := Request(Put, baseUrl + "/pet", map[], map[], Some(payload), map[], {});
    }

    /** `delete_pet(pet_id, api_key)`: DELETE the pet's URL, with the key header when a key is given. */
    method DeletePet(petId: int, apiKey: Option<string> := None) returns (req: Request)
      ensures req.verb == Delete && req.url == PetUrl(baseUrl, petId)
      ensures req.headers == DeleteHeaders(apiKey)
      ensures req.params == map[] && req.json.None? && req.form == map[] && req.files == {}
    {
      var headers: map<string, string> := map[];
      if apiKey.Some? && apiKey.value != "" {
        headers := headers["api_key" := apiKey.value];
      }
      req := Request(Delete, baseUrl + "/pet/" + IntToStr(petId), headers, map[], None, map[], {});
    }

    /**
     * `upload_pet_image(pet_id, file_data, additional_metadata)`: POST a
     * multipart form to the pet's "/uploadImage" URL, with the session
     * headers minus Content-Type.
     */
    method UploadPetImage(petId: int, additionalMetadata: Option<string> := None) returns (req: Request)
      ensures req.verb == Post && req.url == PetUrl(baseUrl, petId) + "/uploadImage"
      ensures req.files == {"file"} && req.form == UploadForm(additionalMetadata)
      ensures req.headers == UploadHeaders(sessionHeaders)
      ensures req.params == map[] && req.json.None?
    {
      var data: map<string, string> := map[];
      if additionalMetadata.Some? && additionalMetadata.value != "" {
        data := data["additionalMetadata" := additionalMetadata.value];
      }
      var headers := map k | k in sessionHeaders && Lower(k) != "content-type" :: sessionHeaders[k];
      req := Request(Post, baseUrl + "/pet/" + IntToStr(petId) + "/uploadImage", headers, map[], None, data, {"file"});
    }
  }
}
