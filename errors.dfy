/**
 * The crate's error taxonomy (src/errors.rs): one closed enumeration of
 * failure kinds, each with the message its `Display` implementation prints,
 * and the `Result<T>` alias every fallible entry point returns.
 */
module Errors {
  import opened Options

  /** The 21 failure kinds, in declaration order. Only two carry a payload. */
  datatype Error =
    | InputStringError(detail: string)
    | NoValueParameter
    | ParameterValueError
    | MissingProjectionError
    | InvalidDatum
    | InvalidEllipsoid
    | InvalidParameterValue(detail: string)
    | LatitudeOutOfRange
    | NoNADGridAvailable
    | InvalidToWGS84String
    | InvalidAxis
    | UnrecognizedFormat
    | LatOrLongExceedLimit
    | NanCoordinateValue
    | CoordinateOutOfRange
    | ProjectionNotFound
    | NoForwardProjectionDefined
    | NoInverseProjectionDefined
    | ProjErrConicLatEqual
    | ToleranceConditionError
    | NonInvPhi2Convergence
  {
    /** True of the two variants whose message is their own payload. */
    predicate HasPayload() {
      InputStringError? || InvalidParameterValue?
    }
  }

  /** `Result<T>` is `std::result::Result<T, Error>`. */
  datatype Result<+T> = Ok(value: T) | Err(error: Error) {
    predicate IsFailure() {
      Err?
    }

    function PropagateFailure<U>(): Result<U>
      requires Err?
    {
      Err(error)
    }

    function Extract(): T
      requires Ok?
    {
      value
    }
  }

  /** The text printed for an error: the payload verbatim, or a fixed message. */
  function Message(e: Error): string {
    match e
    case InputStringError(s) => s
    case NoValueParameter => "No value for parameter"
    case ParameterValueError => "Cannot retrieve value for parameter"
    case MissingProjectionError => "Missing projection name"
    case InvalidDatum => "Unrecognized datum"
    case InvalidEllipsoid => "Unrecognized ellipsoid"
    case InvalidParameterValue(s) => s
    case LatitudeOutOfRange => "Latitude out of range"
    case NoNADGridAvailable => "NAD grid not available"
    case InvalidToWGS84String => "Invalid 'towgs84' string"
    case InvalidAxis => "Invalid axis"
    case UnrecognizedFormat => "Unrecognized format"
    case LatOrLongExceedLimit => "Latitude or longitude over range"
    case NanCoordinateValue => "Nan value for coordinate"
    case CoordinateOutOfRange => "Coordinate out of range"
    case ProjectionNotFound => "Projection not found"
    case NoForwardProjectionDefined => "No forward projection defined for dest projection"
    case NoInverseProjectionDefined => "No inverse projection defined for src projection"
    case ProjErrConicLatEqual => "ProjErrConicLatEqual"
    case ToleranceConditionError => "Tolerance condition not satisfied"
    case NonInvPhi2Convergence => "Non convergence of phi2 calculation"
  }

  /** The two payload variants print their payload verbatim. */
  lemma PayloadMessage(e: Error)
    requires e.HasPayload()
    ensures Message(e) == e.detail
  {
    match e
    case InputStringError(_) =>
    case InvalidParameterValue(_) =>
  }

  /** Length and last two characters of a message. */
  function MessageKey(m: string): (int, char, char) {
    if |m| < 2 then (|m|, ' ', ' ') else (|m|, m[|m| - 1], m[|m| - 2])
  }

  /** The payload-free variant whose fixed message has key `key`, if any. */
  function VariantOfKey(key: (int, char, char)): (r: Option<Error>)
    ensures r.Some? ==> !r.value.HasPayload()
  {
    match key.0
    case 12 =>
      if key.1 == 's' && key.2 == 'i' then Some(InvalidAxis)
      else None
    case 18 =>
      if key.1 == 'm' && key.2 == 'u' then Some(InvalidDatum)
      else None
    case 19 =>
      if key.1 == 't' && key.2 == 'a' then Some(UnrecognizedFormat)
      else None
    case 20 =>
      if key.1 == 'd' && key.2 == 'n' then Some(ProjectionNotFound)
      else if key.1 == 'l' && key.2 == 'a' then Some(ProjErrConicLatEqual)
      else None
    case 21 =>
      if key.1 == 'e' && key.2 == 'g' then Some(LatitudeOutOfRange)
      else None
    case 22 =>
      if key.1 == 'r' && key.2 == 'e' then Some(NoValueParameter)
      else if key.1 == 'd' && key.2 == 'i' then Some(InvalidEllipsoid)
      else if key.1 == 'e' && key.2 == 'l' then Some(NoNADGridAvailable)
      else None
    case 23 =>
      if key.1 == 'e' && key.2 == 'm' then Some(MissingProjectionError)
      else if key.1 == 'e' && key.2 == 'g' then Some(CoordinateOutOfRange)
      else None
    case 24 =>
      if key.1 == 'g' && key.2 == 'n' then Some(InvalidToWGS84String)
      else if key.1 == 'e' && key.2 == 't' then Some(NanCoordinateValue)
      else None
    case 32 =>
      if key.1 == 'e' && key.2 == 'g' then Some(LatOrLongExceedLimit)
      else None
    case 33 =>
      if key.1 == 'd' && key.2 == 'e' then Some(ToleranceConditionError)
      else None
    case 35 =>
      if key.1 == 'r' && key.2 == 'e' then Some(ParameterValueError)
      else if key.1 == 'n' && key.2 == 'o' then Some(NonInvPhi2Convergence)
      else None
    case 48 =>
      if key.1 == 'n' && key.2 == 'o' then Some(NoInverseProjectionDefined)
      else None
    case 49 =>
      if key.1 == 'n' && key.2 == 'o' then Some(NoForwardProjectionDefined)
      else None
    case _ => None
  }

  /** The key of a payload-free error's message leads back to that error. */
  lemma MessageKeyRoundTrip(e: Error)
    requires !e.HasPayload()
    ensures VariantOfKey(MessageKey(Message(e))) == Some(e)
  {
    if Ordinal(e) <= 7 {
      MessageKeyRoundTrip1To7(e);
    } else if Ordinal(e) <= 14 {
      MessageKeyRoundTrip8To14(e);
    } else {
      MessageKeyRoundTrip15To20(e);
    }
  }

  lemma MessageKeyRoundTrip1To7(e: Error)
    requires !e.HasPayload() && 1 <= Ordinal(e) <= 7
    ensures VariantOfKey(MessageKey(Message(e))) == Some(e)
  {
    match e
    case NoValueParameter => MessageKeys0();
    case ParameterValueError => MessageKeys0();
    case MissingProjectionError => MessageKeys0();
    case InvalidDatum => MessageKeys0();
    case InvalidEllipsoid => MessageKeys0();
    case LatitudeOutOfRange => MessageKeys1();
    case _ =>
  }

  lemma MessageKeyRoundTrip8To14(e: Error)
    requires !e.HasPayload() && 8 <= Ordinal(e) <= 14
    ensures VariantOfKey(MessageKey(Message(e))) == Some(e)
  {
    match e
    case NoNADGridAvailable => MessageKeys1();
    case InvalidToWGS84String => MessageKeys1();
    case InvalidAxis => MessageKeys1();
    case UnrecognizedFormat => MessageKeys1();
    case LatOrLongExceedLimit => MessageKeys2();
    case NanCoordinateValue => MessageKeys2();
    case CoordinateOutOfRange => MessageKeys2();
    case _ =>
  }

  lemma MessageKeyRoundTrip15To20(e: Error)
    requires !e.HasPayload() && 15 <= Ordinal(e) <= 20
    ensures VariantOfKey(MessageKey(Message(e))) == Some(e)
  {
    match e
    case ProjectionNotFound => MessageKeys2();
    case NoForwardProjectionDefined => MessageKeys2();
    case NoInverseProjectionDefined => MessageKeys3();
    case ProjErrConicLatEqual => MessageKeys3();
    case ToleranceConditionError => MessageKeys3();
    case NonInvPhi2Convergence => MessageKeys3();
    case _ =>
  }

  lemma MessageKeys0()
    ensures MessageKey("No value for parameter") == (22, 'r', 'e')
    ensures MessageKey("Cannot retrieve value for parameter") == (35, 'r', 'e')
    ensures MessageKey("Missing projection name") == (23, 'e', 'm')
    ensures MessageKey("Unrecognized datum") == (18, 'm', 'u')
    ensures MessageKey("Unrecognized ellipsoid") == (22, 'd', 'i')
  {
  }

  lemma MessageKeys1()
    ensures MessageKey("Latitude out of range") == (21, 'e', 'g')
    ensures MessageKey("NAD grid not available") == (22, 'e', 'l')
    ensures MessageKey("Invalid 'towgs84' string") == (24, 'g', 'n')
    ensures MessageKey("Invalid axis") == (12, 's', 'i')
    ensures MessageKey("Unrecognized format") == (19, 't', 'a')
  {
  }

  lemma MessageKeys2()
    ensures MessageKey("Latitude or longitude over range") == (32, 'e', 'g')
    ensures MessageKey("Nan value for coordinate") == (24, 'e', 't')
    ensures MessageKey("Coordinate out of range") == (23, 'e', 'g')
    ensures MessageKey("Projection not found") == (20, 'd', 'n')
    ensures MessageKey("No forward projection defined for dest projection") == (49, 'n', 'o')
  {
  }

  lemma MessageKeys3()
    ensures MessageKey("No inverse projection defined for src projection") == (48, 'n', 'o')
    ensures MessageKey("ProjErrConicLatEqual") == (20, 'l', 'a')
    ensures MessageKey("Tolerance condition not satisfied") == (33, 'd', 'e')
    ensures MessageKey("Non convergence of phi2 calculation") == (35, 'n', 'o')
  {
  }

  /** Two payload-free errors print the same text only if they are the same error. */
  lemma FixedMessagesDistinct(e1: Error, e2: Error)
    requires !e1.HasPayload() && !e2.HasPayload()
    ensures Message(e1) == Message(e2) <==> e1 == e2
  {
    if Message(e1) == Message(e2) {
      MessageKeyRoundTrip(e1);
      MessageKeyRoundTrip(e2);
    }
  }

  /** Position of the variant in the declaration, which shows the set is closed at 21. */
  function Ordinal(e: Error): (k: nat)
    ensures k < 21
    ensures e.InputStringError? <==> k == 0
    ensures e.InvalidParameterValue? <==> k == 6
  {
    match e
    case InputStringError(_) => 0
    case NoValueParameter => 1
    case ParameterValueError => 2
    case MissingProjectionError => 3
    case InvalidDatum => 4
    case InvalidEllipsoid => 5
    case InvalidParameterValue(_) => 6
    case LatitudeOutOfRange => 7
    case NoNADGridAvailable => 8
    case InvalidToWGS84String => 9
    case InvalidAxis => 10
    case UnrecognizedFormat => 11
    case LatOrLongExceedLimit => 12
    case NanCoordinateValue => 13
    case CoordinateOutOfRange => 14
    case ProjectionNotFound => 15
    case NoForwardProjectionDefined => 16
    case NoInverseProjectionDefined => 17
    case ProjErrConicLatEqual => 18
    case ToleranceConditionError => 19
    case NonInvPhi2Convergence => 20
  }

  /** Every one of the 21 positions is taken by some variant. */
  function VariantAt(k: nat, detail: string): (e: Error)
    requires k < 21
    ensures Ordinal(e) == k
    ensures e.HasPayload() ==> e.detail == detail
  {
    [InputStringError(detail), NoValueParameter, ParameterValueError, MissingProjectionError,
     InvalidDatum, InvalidEllipsoid, InvalidParameterValue(detail), LatitudeOutOfRange,
     NoNADGridAvailable, InvalidToWGS84String, InvalidAxis, UnrecognizedFormat,
     LatOrLongExceedLimit, NanCoordinateValue, CoordinateOutOfRange, ProjectionNotFound,
     NoForwardProjectionDefined, NoInverseProjectionDefined, ProjErrConicLatEqual,
     ToleranceConditionError, NonInvPhi2Convergence][k]
  }

  /** Within one position there is one variant: payload-free errors are determined by it. */
  lemma OrdinalDeterminesVariant(e1: Error, e2: Error)
    requires Ordinal(e1) == Ordinal(e2)
    ensures e1.HasPayload() == e2.HasPayload()
    ensures !e1.HasPayload() ==> e1 == e2
    ensures e1.HasPayload() ==> e1 == VariantAt(Ordinal(e1), e1.detail) && e2 == VariantAt(Ordinal(e2), e2.detail)
  {
  }
}
