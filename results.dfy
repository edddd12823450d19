/** The response envelope Result<T> that every handler returns. Its timing fields
    (RequestTime, ResponseTime, ActivityTime) are clock readings and are not modelled. */
module Results {
  import opened Options

  const Status200OK := 200
  const Status201Created := 201
  const Status400BadRequest := 400
  const Status404NotFound := 404
  const Status429TooManyRequests := 429
  const Status500InternalServerError := 500

  /** The envelope's fields. `None` marks a field no constructor assigned, which keeps
      its default: `null` for the strings and ints, `default(T)` for Data. */
  datatype Result<T> = Result(
    data: Option<T>,
    requestId: Option<string>,
    errorMessage: string,
    responseCode: Option<int>,
    responseDescription: Option<string>,
    isSuccess: bool,
    errors: map<string, seq<string>>)

  /** The state every constructor starts from: the property initialisers
      (RequestId = "", ErrorMessage = "", IsSuccess = true, no Errors) and defaults. */
  function Initial<T>(): Result<T>
  {
    Result(None, Some(""), "", None, None, true, map[])
  }

  /** HasError: the error message is not the empty string. */
  predicate HasError<T>(r: Result<T>): (b: bool)
    ensures b <==> |r.errorMessage| > 0
  {
    r.errorMessage != ""
  }

  /** Success(requestTime, value, responseCode, description, requestId). */
  function Success<T>(value: T, responseCode: int, description: Option<string>, requestId: Option<string>): (r: Result<T>)
    ensures r.isSuccess && !HasError(r)
    ensures r.data == Some(value) && r.responseCode == Some(responseCode)
    ensures r.responseDescription == description && r.requestId == requestId
    ensures r.errors == map[]
  {
    Initial().(data := Some(value), responseDescription := description,
               responseCode := Some(responseCode), requestId := requestId, isSuccess := true)
  }

  /** Success(requestTime, id, data, v): `id` and `v` are dropped; no response code
      and no description are set. */
  function SuccessIgnoringId<T>(id: int, data: T, v: string): (r: Result<T>)
    ensures r.isSuccess && !HasError(r)
    ensures r.data == Some(data) && r.responseCode == None && r.responseDescription == None
    ensures r.requestId == Some("") && r.errors == map[]
  {
    Initial().(data := Some(data), responseDescription := None, isSuccess := true)
  }

  /** Failure(requestTime, errorMessage, responseCode). */
  function Failure<T>(errorMessage: string, responseCode: int): (r: Result<T>)
    ensures !r.isSuccess && r.data == None
    ensures r.errorMessage == errorMessage && r.responseCode == Some(responseCode)
    ensures HasError(r) <==> errorMessage != ""
    ensures r.responseDescription == None && r.errors == map[]
  {
    Initial().(errorMessage := errorMessage, responseCode := Some(responseCode), isSuccess := false)
  }

  /** Failure(requestTime, errorMessage): a failure without a response code. */
  function FailureWithoutCode<T>(errorMessage: string): (r: Result<T>)
    ensures !r.isSuccess && r.data == None && r.responseCode == None
    ensures r.errorMessage == errorMessage && r.requestId == Some("") && r.errors == map[]
    ensures HasError(r) <==> errorMessage != ""
  {
    Initial().(errorMessage := errorMessage, isSuccess := false)
  }

  /** Failure(errorMessage): only ErrorMessage is assigned, so IsSuccess keeps its
      initial value and the "failure" reads as a success with an error. */
  function FailureMessageOnly<T>(errorMessage: string): (r: Result<T>)
    ensures r.isSuccess && r.data == None && r.responseCode == None
    ensures r.errorMessage == errorMessage
    ensures HasError(r) <==> errorMessage != ""
  {
    Initial().(errorMessage := errorMessage)
  }

  /** Failure(requestTime, errorMessage, errors): keeps the validation errors, sets no
      response code. */
  function FailureWithErrors<T>(errorMessage: string, errors: map<string, seq<string>>): (r: Result<T>)
    ensures !r.isSuccess && r.data == None && r.responseCode == None
    ensures r.errorMessage == errorMessage && r.errors == errors
  {
    Initial().(errorMessage := errorMessage, errors := errors, isSuccess := false)
  }
}
