/**
 * `validateBookingInput`, the guard that `POST /book` runs on the request body before it opens
 * a transaction. The fields arrive as arbitrary JSON values, so they are modelled as JavaScript
 * values with JavaScript's notion of truthiness.
 */
module BookingValidation {
  import opened Wrappers
  import opened Text

  /** A request-body field as JavaScript sees it (a JSON number is taken to be an integer). */
  datatype JsValue = Undefined | Null | Bool(b: bool) | Num(n: int) | Str(s: string) | Obj

  /** `!!v` */
  predicate Truthy(v: JsValue) {
    match v
    case Undefined => false
    case Null => false
    case Bool(b) => b
    case Num(n) => n != 0
    case Str(s) => s != []
    case Obj => true
  }

  datatype ValidationError = MissingFields | InvalidTypes | NameTooLong | InvalidMovieId

  /** The longest accepted `user_name` (the check is `length > 100`, so 100 itself passes). */
  const MaxUserNameLength: nat := 100

  function Message(e: ValidationError): string {
    match e
    case MissingFields => "Missing required fields"
    case InvalidTypes => "Invalid input types"
    case NameTooLong => "User name must be less than 100 characters"
    case InvalidMovieId => "Invalid movie ID format - must be numeric"
  }

  /** The inputs that pass every check: a numeric movie id and a non-empty name of at most 100 characters. */
  predicate WellFormed(movieId: JsValue, userName: JsValue) {
    && movieId.Str? && userName.Str?
    && IsNumeral(movieId.s)
    && userName.s != [] && |userName.s| <= MaxUserNameLength
  }

  /**
   * The four checks in the order the source makes them; the first that fails decides the
   * error. `None` means the function returned without throwing.
   */
  function ValidateBookingInput(movieId: JsValue, userName: JsValue): (r: Option<ValidationError>)
    ensures r == None <==> WellFormed(movieId, userName)
    ensures r == Some(MissingFields) <==> !Truthy(movieId) || !Truthy(userName)
    ensures r == Some(InvalidTypes) <==>
              Truthy(movieId) && Truthy(userName) && !(movieId.Str? && userName.Str?)
    ensures r == Some(NameTooLong) <==>
              movieId.Str? && movieId.s != [] && userName.Str? && |userName.s| > MaxUserNameLength
    ensures r == Some(InvalidMovieId) <==>
              movieId.Str? && movieId.s != [] && userName.Str? && userName.s != []
              && |userName.s| <= MaxUserNameLength && !IsNumeral(movieId.s)
  {
    if !Truthy(movieId) || !Truthy(userName) then Some(MissingFields)
    else if !movieId.Str? || !userName.Str? then Some(InvalidTypes)
    else if |userName.s| > MaxUserNameLength then Some(NameTooLong)
    else if !IsNumeral(movieId.s) then Some(InvalidMovieId)
    else None
  }

  /** A 100-character name is accepted and a 101-character one is not, whatever the movie id. */
  lemma NameLengthBoundary(movieId: string, name: string)
    requires IsNumeral(movieId)
    ensures |name| == 100 ==> ValidateBookingInput(Str(movieId), Str(name)) == None
    ensures |name| == 101 ==> ValidateBookingInput(Str(movieId), Str(name)) == Some(NameTooLong)
  {
  }

  /** No validation message contains "not found", so `POST /book` answers every one of them with 400. */
  lemma {:induction false} MessagesLackNotFound(e: ValidationError)
    ensures !Includes(Message(e), "not found")
  {
    match e
    case MissingFields => NotIncludesWithoutPair("Missing required fields", "not found");
    case InvalidTypes => NotIncludesWithoutPair("Invalid input types", "not found");
    case NameTooLong => NotIncludesWithoutPair("User name must be less than 100 characters", "not found");
    case InvalidMovieId => NotIncludesWithoutPair("Invalid movie ID format - must be numeric", "not found");
  }
}
