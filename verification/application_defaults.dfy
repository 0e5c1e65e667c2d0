/**
 * `getApplicationDefaultValues`: the values the application form starts from.
 * Only the names come from the signed-in user; everything else is blank,
 * which the schema rejects.
 */
module ApplicationDefaults {
  import opened Wrappers
  import opened JsString
  import opened ApplicationSchema
  import opened ApplicationProperties

  /** The `userData` argument: only its `firstName` and `lastName` are read. */
  datatype UserData = UserData(firstName: Option<string>, lastName: Option<string>)

  /** `value || ""` on an optional string: a falsy value, undefined or empty, becomes `""`. */
  function OrEmpty(v: Option<string>): (r: string)
    ensures r == "" <==> v.None? || v.value == ""
    ensures r != "" ==> v == Some(r)
  {
    match v
    case Some(s) => if s != "" then s else ""
    case None => ""
  }

  /** `userData?.firstName`, undefined when there is no user. */
  function GivenFirstName(user: Option<UserData>): Option<string> {
    match user
    case None => None
    case Some(u) => u.firstName
  }

  /** `userData?.lastName`, undefined when there is no user. */
  function GivenLastName(user: Option<UserData>): Option<string> {
    match user
    case None => None
    case Some(u) => u.lastName
  }

  /** `getApplicationDefaultValues(userData)`: the record the form starts from. */
  function DefaultValues(user: Option<UserData>): (d: Submission)
    ensures forall f :: Absent(d, f) <==> RuleOf(f) in {RequiredFile, OptionalFile} || f == OlympiadsTrainingSelection
    ensures d.termsAgreement == Some(false)
    ensures d.dateOfBirth == NotADate
    ensures forall f :: f !in {FirstName, LastName, OlympiadsTrainingSelection} && ValueOf(d, f).Text? ==>
      ValueOf(d, f) == Text(Some(""))
    ensures d.firstName == Some("") || d.firstName == GivenFirstName(user)
    ensures d.firstName == Some("") <==> GivenFirstName(user).None? || GivenFirstName(user) == Some("")
    ensures d.lastName == Some("") || d.lastName == GivenLastName(user)
    ensures d.lastName == Some("") <==> GivenLastName(user).None? || GivenLastName(user) == Some("")
  {
    Submission(
      firstName := Some(OrEmpty(GivenFirstName(user))),
      lastName := Some(OrEmpty(GivenLastName(user))),
      dateOfBirth := NotADate,
      massarCode := Some(""),
      city := Some(""),
      region := Some(""),
      phoneNumber := Some(""),
      guardianFullName := Some(""),
      parentCNIE := Some(""),
      guardianPhoneNumber := Some(""),
      relationshipWithGuardian := Some(""),
      specialConditions := Some(""),
      highschool := Some(""),
      averageGrade := Some(""),
      physicsAverageGrade := Some(""),
      ranking := Some(""),
      physicsRanking := Some(""),
      hasPreviouslyParticipated := Some(""),
      previousCompetitions := Some(""),
      physicsOlympiadsParticipation := Some(""),
      olympiadsTrainingSelection := None,
      comments := Some(""),
      parentId := None,
      birthCertificate := None,
      schoolCertificate := None,
      grades := None,
      regulations := None,
      parentalAuthorization := None,
      imageRights := None,
      termsAgreement := Some(false)
    )
  }

  /**
   * Apart from the names and the two phone numbers, a default field passes
   * exactly when the schema makes it optional.
   */
  lemma DefaultFieldIssues(user: Option<UserData>, f: Field, isValidPhone: string -> bool)
    requires f !in {FirstName, LastName, PhoneNumber, GuardianPhoneNumber}
    ensures FieldIssues(DefaultValues(user), f, isValidPhone) == [] <==> f in OptionalFields
  {
    var d := DefaultValues(user);
    FieldIssuesIffRule(d, f, isValidPhone);
    assert Occurrences("", ' ') == 0;
    match f
    case DateOfBirth => case MassarCode => case City => case Region =>
    case GuardianFullName => case ParentCNIE => case RelationshipWithGuardian =>
    case SpecialConditions => case Highschool => case AverageGrade =>
    case PhysicsAverageGrade => case Ranking => case PhysicsRanking =>
    case HasPreviouslyParticipated => case PreviousCompetitions =>
    case PhysicsOlympiadsParticipation => case OlympiadsTrainingSelection => case Comments =>
    case ParentId => case BirthCertificate => case SchoolCertificate => case Grades =>
    case Regulations => case ParentalAuthorization => case ImageRights => case TermsAgreement =>
    case FirstName | LastName | PhoneNumber | GuardianPhoneNumber =>
  }

  /** A default name passes exactly when the user supplied one of 1 to 50 characters. */
  lemma DefaultNameIssues(user: Option<UserData>, isValidPhone: string -> bool)
    ensures FieldIssues(DefaultValues(user), FirstName, isValidPhone) == [] <==>
      GivenFirstName(user).Some? && 1 <= |GivenFirstName(user).value| <= 50
    ensures FieldIssues(DefaultValues(user), LastName, isValidPhone) == [] <==>
      GivenLastName(user).Some? && 1 <= |GivenLastName(user).value| <= 50
  {
  }

  /** A default phone number passes exactly when the phone check accepts the empty string. */
  lemma DefaultPhoneIssues(user: Option<UserData>, isValidPhone: string -> bool)
    ensures FieldIssues(DefaultValues(user), PhoneNumber, isValidPhone) == [] <==> isValidPhone("")
    ensures FieldIssues(DefaultValues(user), GuardianPhoneNumber, isValidPhone) == [] <==> isValidPhone("")
  {
  }

  /** The defaults never validate: at the least, the terms have not been accepted. */
  lemma DefaultsNeverValidate(user: Option<UserData>, isValidPhone: string -> bool)
    ensures (TermsAgreement, Issue(CustomCheck, Some(TermsMessage))) in Validate(DefaultValues(user), isValidPhone)
    ensures Validate(DefaultValues(user), isValidPhone) != []
  {
    var d := DefaultValues(user);
    assert FieldIssues(d, TermsAgreement, isValidPhone) == [Issue(CustomCheck, Some(TermsMessage))];
    ErrorOfField(d, TermsAgreement, Issue(CustomCheck, Some(TermsMessage)), isValidPhone);
  }
}
