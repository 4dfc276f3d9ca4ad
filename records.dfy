/** The values the medical-camp server passes around: the documents of its five
    collections, ObjectId strings, JavaScript truthiness of request fields and
    the HTTP statuses the routes answer with. */
module Records {

  datatype Option<+T> = None | Some(value: T) {
    /** The value, or `default` when there is none. */
    function GetOr(default: T): T {
      match this
      case Some(v) => v
      case None => default
    }
  }

  /** The HTTP statuses the routes send. */
  datatype Status = Ok | Created | BadRequest | Unauthorized | Forbidden | NotFound | ServerError {
    function Code(): int {
      match this
      case Ok => 200
      case Created => 201
      case BadRequest => 400
      case Unauthorized => 401
      case Forbidden => 403
      case NotFound => 404
      case ServerError => 500
    }
  }

  /** A request string is truthy in JavaScript when it is present and not "". */
  predicate Truthy(s: Option<string>) {
    s.Some? && s.value != ""
  }

  /** A request number is truthy when it is present and not zero. */
  predicate TruthyAmount(a: Option<real>) {
    a.Some? && a.value != 0.0
  }

  predicate IsHexDigit(c: char) {
    ('0' <= c <= '9') || ('a' <= c <= 'f') || ('A' <= c <= 'F')
  }

  predicate IsLowerHexDigit(c: char) {
    ('0' <= c <= '9') || ('a' <= c <= 'f')
  }

  /** Every character of `s` is a hexadecimal digit, in either case. */
  predicate HexDigits(s: string) {
    s == [] || (IsHexDigit(s[0]) && HexDigits(s[1..]))
  }

  /** Every character of `s` is a lower-case hexadecimal digit. */
  predicate LowerHexDigits(s: string) {
    s == [] || (IsLowerHexDigit(s[0]) && LowerHexDigits(s[1..]))
  }

  /** The recursive test agrees with reading the string character by character:
      every position holds a hexadecimal digit. */
  lemma {:induction false} HexDigitsEach(s: string)
    ensures HexDigits(s) <==> forall i :: 0 <= i < |s| ==> IsHexDigit(s[i])
  {
    if s != [] {
      HexDigitsEach(s[1..]);
      assert forall i :: 0 < i < |s| ==> s[1..][i - 1] == s[i];
    }
  }

  /** `ObjectId.isValid` on a string: exactly 24 hexadecimal digits, in either case. */
  predicate ValidId(s: string) {
    |s| == 24 && HexDigits(s)
  }

  /** The canonical (lower-case) spelling of an ObjectId, the form the store keys documents by. */
  predicate IsObjectId(s: string) {
    ValidId(s) && LowerHexDigits(s)
  }

  function LowerHex(c: char): char {
    if 'A' <= c <= 'F' then (c as int + 32) as char else c
  }

  /** `s` with its upper-case hexadecimal letters lowered. */
  function Lowered(s: string): (r: string)
    ensures |r| == |s|
    ensures forall i :: 0 <= i < |s| ==> r[i] == LowerHex(s[i])
    ensures HexDigits(s) ==> HexDigits(r) && LowerHexDigits(r)
    ensures LowerHexDigits(s) ==> r == s
  {
    if s == [] then []
    else
      var r := [LowerHex(s[0])] + Lowered(s[1..]);
      assert r[1..] == Lowered(s[1..]);
      assert forall i :: 0 < i < |s| ==> s[1..][i - 1] == s[i];
      r
  }

  /** `new ObjectId(s)` for a valid string: the same twelve bytes, spelled in lower case. */
  function ToObjectId(s: string): (id: string)
    requires ValidId(s)
    ensures IsObjectId(id)
    ensures |id| == |s| && forall i :: 0 <= i < |s| ==> id[i] == LowerHex(s[i])
    ensures IsObjectId(s) ==> id == s
  {
    Lowered(s)
  }

  datatype User = User(
    email: string,
    name: Option<string>,
    photo: Option<string>,
    role: Option<string>,
    lastSignIn: Option<string>)

  /** A camp document. `fields` holds the descriptive fields the organizer sends
      (name, fees, location, ...); timestamps are ISO strings in the store, whose
      lexicographic order is their chronological order, so they are integers here. */
  datatype Camp = Camp(
    fields: map<string, string>,
    participantCount: Option<int>,
    createdAt: Option<int>,
    updatedAt: Option<int>)

  datatype PaymentStatus = Unpaid | Paid
  datatype ConfirmationStatus = Pending | Confirmed

  /** The body of POST /camp-registration. */
  datatype RegistrationForm = RegistrationForm(
    campId: Option<string>,
    email: Option<string>,
    details: map<string, string>)

  datatype Registration = Registration(
    campId: string,
    email: Option<string>,
    details: map<string, string>,
    registeredAt: int,
    paymentStatus: PaymentStatus,
    confirmationStatus: ConfirmationStatus)

  /** The body of POST /payments. */
  datatype PaymentForm = PaymentForm(
    campId: Option<string>,
    campName: Option<string>,
    email: Option<string>,
    amount: Option<real>,
    paymentMethod: Option<string>,
    transactionId: Option<string>)

  datatype Payment = Payment(
    campId: string,
    campName: Option<string>,
    email: string,
    fees: real,
    paymentStatus: PaymentStatus,
    confirmationStatus: ConfirmationStatus,
    paymentMethod: Option<string>,
    transactionId: Option<string>,
    paidAt: int)

  datatype Feedback = Feedback(createdAt: Option<int>, content: map<string, string>)

  /** A stored document together with its `_id`. */
  datatype Doc<T> = Doc(id: string, body: T)
}
