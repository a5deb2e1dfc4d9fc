/** The custom string rules used by the request schemas: a Mongo object id, and a strong
    password. Each regular expression is written out as character classes over the string. */
module CustomValidation {

  /** The outcome of a custom rule: the value passes through unchanged, or a message replaces it. */
  datatype Validated = Accepted(value: string) | Rejected(message: string)

  /** The character classes the two expressions use. `Digit` is JavaScript's `\d`, which is
      ASCII only; `PasswordChar` is `[A-Za-z\d!@#$%^&*()_+.]`. */
  datatype CharClass = Hex | Lower | Upper | Digit | Special | PasswordChar

  predicate InClass(c: char, k: CharClass) {
    match k
    case Hex => '0' <= c <= '9' || 'a' <= c <= 'f' || 'A' <= c <= 'F'
    case Lower => 'a' <= c <= 'z'
    case Upper => 'A' <= c <= 'Z'
    case Digit => '0' <= c <= '9'
    case Special => c in "!@#$%^&*()_+."
    case PasswordChar => 'a' <= c <= 'z' || 'A' <= c <= 'Z' || '0' <= c <= '9' || c in "!@#$%^&*()_+."
  }

  /** `^[k]*$`: every character of `s` is in class `k`. */
  predicate AllIn(s: string, k: CharClass) {
    s == [] || (InClass(s[0], k) && AllIn(s[1..], k))
  }

  /** The lookahead `(?=.*[k])`: some character of `s` is in class `k`. */
  predicate SomeIn(s: string, k: CharClass) {
    s != [] && (InClass(s[0], k) || SomeIn(s[1..], k))
  }

  lemma {:induction false} AllInMeansEvery(s: string, k: CharClass)
    ensures AllIn(s, k) <==> forall i :: 0 <= i < |s| ==> InClass(s[i], k)
  {
    if s != [] {
      AllInMeansEvery(s[1..], k);
      assert forall i :: 1 <= i < |s| ==> s[i] == s[1..][i - 1];
    }
  }

  lemma {:induction false} SomeInMeansExists(s: string, k: CharClass)
    ensures SomeIn(s, k) <==> exists i :: 0 <= i < |s| && InClass(s[i], k)
  {
    if s != [] {
      SomeInMeansExists(s[1..], k);
      assert forall i :: 1 <= i < |s| ==> s[i] == s[1..][i - 1];
    }
  }

  const MongoIdMessage := "\"{{#label}}\" must be a valid mongo id"
  const PasswordMessage := "Password must contain at least 8 characters, 1 number, 1 uppercase & 1 lowercase letter and one of these special characters (!@#$%^&*()_+.)"

  /** `objectId`: `^[0-9a-fA-F]{24}$`. */
  function ObjectId(value: string): (r: Validated)
    ensures r == Accepted(value) <==> |value| == 24 && forall i :: 0 <= i < |value| ==> InClass(value[i], Hex)
    ensures r != Accepted(value) ==> r == Rejected(MongoIdMessage)
  {
    AllInMeansEvery(value, Hex);
    if |value| == 24 && AllIn(value, Hex) then Accepted(value) else Rejected(MongoIdMessage)
  }

  /** The password expression, `^(?=.*[a-z])(?=.*[A-Z])(?=.*\d)(?=.*[!@#$%^&*()_+.])[A-Za-z\d!@#$%^&*()_+.]{8,}$`.
      The lookaheads' `.` stops at line terminators, but none can occur in a string the main
      part accepts, so each lookahead is "some character of the string is in the class". */
  predicate StrongPassword(s: string) {
    && SomeIn(s, Lower)
    && SomeIn(s, Upper)
    && SomeIn(s, Digit)
    && SomeIn(s, Special)
    && |s| >= 8
    && AllIn(s, PasswordChar)
  }

  /** `password`: at least eight characters, all from the allowed set, with a lower-case letter,
      an upper-case letter, a digit and a special character among them. */
  function Password(value: string): (r: Validated)
    ensures r == Accepted(value) <==>
      && |value| >= 8
      && (forall i :: 0 <= i < |value| ==> InClass(value[i], PasswordChar))
      && (exists i :: 0 <= i < |value| && InClass(value[i], Lower))
      && (exists i :: 0 <= i < |value| && InClass(value[i], Upper))
      && (exists i :: 0 <= i < |value| && InClass(value[i], Digit))
      && (exists i :: 0 <= i < |value| && InClass(value[i], Special))
    ensures r != Accepted(value) ==> r == Rejected(PasswordMessage)
  {
    AllInMeansEvery(value, PasswordChar);
    SomeInMeansExists(value, Lower);
    SomeInMeansExists(value, Upper);
    SomeInMeansExists(value, Digit);
    SomeInMeansExists(value, Special);
    if StrongPassword(value) then Accepted(value) else Rejected(PasswordMessage)
  }

  /** A password shorter than eight characters, or holding a character outside the allowed set,
      is rejected whatever else it holds. */
  lemma WeakPasswordsRejected(value: string)
    requires |value| < 8 || exists i :: 0 <= i < |value| && !InClass(value[i], PasswordChar)
    ensures Password(value) == Rejected(PasswordMessage)
  {
  }

  /** A sample id: 24 hexadecimal digits is accepted, one wrong digit is rejected. */
  lemma ObjectIdSamples()
    ensures ObjectId("507f1f77bcf86cd799439011") == Accepted("507f1f77bcf86cd799439011")
    ensures ObjectId("507f1f77bcf86cd79943901g") == Rejected(MongoIdMessage)
  {
    var id := "507f1f77bcf86cd799439011";
    assert forall i :: 0 <= i < |id| ==> InClass(id[i], Hex);
    var bad := "507f1f77bcf86cd79943901g";
    assert !InClass(bad[23], Hex);
  }

  /** A password meeting every rule is accepted. */
  lemma StrongPasswordSample()
    ensures Password("Passw0rd!") == Accepted("Passw0rd!")
  {
    var strong := "Passw0rd!";
    assert forall i :: 0 <= i < |strong| ==> InClass(strong[i], PasswordChar);
    assert InClass(strong[1], Lower) && InClass(strong[0], Upper) && InClass(strong[5], Digit) && InClass(strong[8], Special);
  }

  /** A password lacking a special character is rejected. */
  lemma NoSpecialSample()
    ensures Password("Passw0rd") == Rejected(PasswordMessage)
  {
    var plain := "Passw0rd";
    assert forall i :: 0 <= i < |plain| ==> !InClass(plain[i], Special);
  }
}
