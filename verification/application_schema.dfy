/**
 * The candidate application form's validation schema. Each Zod rule is a
 * function from the raw field value to the list of issues it raises; the
 * schema's verdict on a whole submission is the list of (field, issue) pairs
 * of every field, collected rather than stopping at the first failure.
 *
 * Zod's behaviour as used here: a `z.string()` given `undefined` raises one
 * invalid-type issue and runs none of its checks; otherwise every `.min`,
 * `.max` and `.refine` check runs and each failing one adds an issue;
 * `.optional()` accepts `undefined` before anything else runs; `.default(v)`
 * replaces `undefined` by `v` before the refinements run.
 */
module ApplicationSchema {
  import opened Wrappers
  import opened JsString

  // ---------------------------------------------------------------- limits

  /** Largest accepted upload: 15 MiB. */
  const MaxUploadSize: nat := 1024 * 1024 * 15

  /** MIME types an upload may have; `image/png` is listed twice. */
  const AcceptedFileTypes: seq<string> :=
    ["image/png", "image/jpeg", "image/jpg", "image/png", "image/webp", "application/pdf"]

  /** Bounds of every `z.string().min(1).max(50)` field. */
  const MinLength: nat := 1
  const MaxLength: nat := 50

  /** Largest number of space-separated pieces a free-text field may hold. */
  const MaxWords: nat := 100

  // -------------------------------------------------------------- messages

  const FileRequiredMessage := "Ce fichier est obligatoire."
  const FileTypeMessage := "Please choose PNG, JPEG or PDF format files only"
  const FileSizeMessage := "File size must be less than 15MB"
  const DateRequiredMessage := "A date of birth is required."
  const RegionMessage := "Please select an option"
  const PhoneMessage := "Invalid phone number"
  const GuardianPhoneMessage := "Numéro de téléphone invalide"
  const SpecialConditionsMessage := "Maximum 100 mots"
  const SelectOptionMessage := "Please select an option."
  const CommentsMessage := "Text can't be more than 100 words"
  const TermsMessage := "Vous devez accepter les Conditions Générales."
  const TrainingSelectionMessage := "Please select whether you are selected for July training"

  // ------------------------------------------------------------ data model

  /** One element of an upload's file list: its `type` and `size`, either of which may be undefined. */
  datatype FileMeta = FileMeta(mimeType: Option<string>, size: Option<nat>)

  /** An upload field's value: `None` stands for `undefined` (or any other falsy value), `Some` for a file list. */
  type FileList = Option<seq<FileMeta>>

  /** The date of birth: missing, a `Date`, or some other value (such as the empty string). */
  datatype DateInput = DateAbsent | DateValue | NotADate

  /** A raw submission of the application form; `None` is an undefined field. */
  datatype Submission = Submission(
    // personal information
    firstName: Option<string>,
    lastName: Option<string>,
    dateOfBirth: DateInput,
    massarCode: Option<string>,
    city: Option<string>,
    region: Option<string>,
    phoneNumber: Option<string>,
    guardianFullName: Option<string>,
    parentCNIE: Option<string>,
    guardianPhoneNumber: Option<string>,
    relationshipWithGuardian: Option<string>,
    specialConditions: Option<string>,
    // education
    highschool: Option<string>,
    averageGrade: Option<string>,
    physicsAverageGrade: Option<string>,
    ranking: Option<string>,
    physicsRanking: Option<string>,
    // competition
    hasPreviouslyParticipated: Option<string>,
    previousCompetitions: Option<string>,
    physicsOlympiadsParticipation: Option<string>,
    olympiadsTrainingSelection: Option<string>,
    comments: Option<string>,
    // uploads
    parentId: FileList,
    birthCertificate: FileList,
    schoolCertificate: FileList,
    grades: FileList,
    regulations: FileList,
    parentalAuthorization: FileList,
    imageRights: FileList,
    // terms of agreement
    termsAgreement: Option<bool>
  )

  /** The keys of the schema's object, in declaration order. */
  datatype Field =
    | FirstName | LastName | DateOfBirth | MassarCode | City | Region | PhoneNumber
    | GuardianFullName | ParentCNIE | GuardianPhoneNumber | RelationshipWithGuardian
    | SpecialConditions
    | Highschool | AverageGrade | PhysicsAverageGrade | Ranking | PhysicsRanking
    | HasPreviouslyParticipated | PreviousCompetitions | PhysicsOlympiadsParticipation
    | OlympiadsTrainingSelection | Comments
    | ParentId | BirthCertificate | SchoolCertificate | Grades | Regulations
    | ParentalAuthorization | ImageRights
    | TermsAgreement

  /** The kind of a Zod issue. */
  datatype IssueCode =
    | InvalidType
    | TooSmall(minimum: nat)
    | TooBig(maximum: nat)
    | InvalidEnumValue(received: string)
    | CustomCheck

  /** A Zod issue: its kind and the schema's own message, `None` where Zod's default text applies. */
  datatype Issue = Issue(code: IssueCode, message: Option<string>)

  // ------------------------------------------------------------ the uploads

  /** `ACCEPTED_FILE_TYPES.includes(t)`: the duplicate entry adds nothing. */
  predicate IsAcceptedType(t: string)
    ensures IsAcceptedType(t) <==>
      t in {"image/png", "image/jpeg", "image/jpg", "image/webp", "application/pdf"}
  {
    t in AcceptedFileTypes
  }

  /** `files?.length == 1` */
  predicate HasOneFile(files: FileList) {
    files.Some? && |files.value| == 1
  }

  /** `files ? ACCEPTED_FILE_TYPES.includes(files[0]?.type) : true` */
  predicate FirstTypeAccepted(files: FileList) {
    match files
    case None => true
    case Some(list) => |list| > 0 && list[0].mimeType.Some? && IsAcceptedType(list[0].mimeType.value)
  }

  /** `files ? files[0]?.size <= MAX_UPLOAD_SIZE : true`; an undefined size compares false. */
  predicate FirstSizeAccepted(files: FileList) {
    match files
    case None => true
    case Some(list) => |list| > 0 && list[0].size.Some? && list[0].size.value <= MaxUploadSize
  }

  /**
   * `zodFileValidation`: the three refinements of a required upload, each
   * adding its own issue. A missing list raises only the "required" issue.
   */
  function RequiredFileIssues(files: FileList): (r: seq<Issue>)
    ensures files.None? ==> r == [Issue(CustomCheck, Some(FileRequiredMessage))]
    ensures r == [] <==>
      files.Some? && |files.value| == 1
      && files.value[0].mimeType.Some?
      && files.value[0].mimeType.value in {"image/png", "image/jpeg", "image/jpg", "image/webp", "application/pdf"}
      && files.value[0].size.Some? && files.value[0].size.value <= 15728640
    ensures Issue(CustomCheck, Some(FileRequiredMessage)) in r <==> !(files.Some? && |files.value| == 1)
    ensures Issue(CustomCheck, Some(FileTypeMessage)) in r <==>
      files.Some? && !(|files.value| > 0 && files.value[0].mimeType.Some? && IsAcceptedType(files.value[0].mimeType.value))
    ensures Issue(CustomCheck, Some(FileSizeMessage)) in r <==>
      files.Some? && !(|files.value| > 0 && files.value[0].size.Some? && files.value[0].size.value <= MaxUploadSize)
  {
    (if HasOneFile(files) then [] else [Issue(CustomCheck, Some(FileRequiredMessage))])
    + (if FirstTypeAccepted(files) then [] else [Issue(CustomCheck, Some(FileTypeMessage))])
    + (if FirstSizeAccepted(files) then [] else [Issue(CustomCheck, Some(FileSizeMessage))])
  }

  /** `zodOptionalFileValidation`, `z.any().optional()`: every value passes. */
  function OptionalFileIssues(files: FileList): seq<Issue> {
    []
  }

  // ------------------------------------------------------------ the strings

  /** `z.string().min(1).max(50)` */
  function BoundedStringIssues(v: Option<string>): (r: seq<Issue>)
    ensures r == [] <==> v.Some? && 1 <= |v.value| <= 50
    ensures |r| <= 1
    ensures v.None? ==> r == [Issue(InvalidType, None)]
    ensures v.Some? && |v.value| == 0 ==> r == [Issue(TooSmall(1), None)]
    ensures v.Some? && |v.value| > 50 ==> r == [Issue(TooBig(50), None)]
  {
    match v
    case None => [Issue(InvalidType, None)]
    case Some(s) =>
      (if |s| < MinLength then [Issue(TooSmall(MinLength), None)] else [])
      + (if |s| > MaxLength then [Issue(TooBig(MaxLength), None)] else [])
  }

  /** `z.string().nonempty(message)`: a select whose value must not be empty. */
  function SelectIssues(v: Option<string>, message: string): (r: seq<Issue>)
    ensures r == [] <==> v.Some? && v.value != ""
    ensures v == Some("") ==> r == [Issue(TooSmall(1), Some(message))]
  {
    match v
    case None => [Issue(InvalidType, None)]
    case Some(s) => if |s| < 1 then [Issue(TooSmall(1), Some(message))] else []
  }

  /** `z.string().refine(isValidPhoneNumber, message)`, the phone check given as `isValidPhone`. */
  function PhoneIssues(v: Option<string>, isValidPhone: string -> bool, message: string): (r: seq<Issue>)
    ensures r == [] <==> v.Some? && isValidPhone(v.value)
    ensures v.Some? && !isValidPhone(v.value) ==> r == [Issue(CustomCheck, Some(message))]
  {
    match v
    case None => [Issue(InvalidType, None)]
    case Some(s) => if isValidPhone(s) then [] else [Issue(CustomCheck, Some(message))]
  }

  /**
   * `z.string().optional().refine(...)` on a free-text field: an undefined or
   * empty value passes, any other must split on `' '` into at most 100 pieces.
   */
  function WordLimitIssues(v: Option<string>, message: string): (r: seq<Issue>)
    ensures r == [] <==> v.None? || v.value == "" || Occurrences(v.value, ' ') < MaxWords
    ensures r != [] ==> r == [Issue(CustomCheck, Some(message))]
  {
    match v
    case None => []
    case Some(s) =>
      SplitCount(s, ' ');
      if s != "" && !(|Split(s, ' ')| <= MaxWords) then [Issue(CustomCheck, Some(message))] else []
  }

  /** `z.string().optional()`: undefined or any string passes. */
  function OptionalStringIssues(v: Option<string>): seq<Issue> {
    []
  }

  // -------------------------------------------------------- enums and terms

  /** `z.date({ required_error })`, the date only as present or absent. */
  function DateIssues(d: DateInput): (r: seq<Issue>)
    ensures r == [] <==> d.DateValue?
    ensures d.DateAbsent? ==> r == [Issue(InvalidType, Some(DateRequiredMessage))]
  {
    match d
    case DateAbsent => [Issue(InvalidType, Some(DateRequiredMessage))]
    case NotADate => [Issue(InvalidType, None)]
    case DateValue => []
  }

  /** The members of `z.enum(["yes", "no"])`. */
  predicate IsYesNo(s: string) {
    s in ["yes", "no"]
  }

  /** `z.enum(["yes", "no"], { required_error })` */
  function RequiredEnumIssues(v: Option<string>): (r: seq<Issue>)
    ensures r == [] <==> v == Some("yes") || v == Some("no")
    ensures v.None? ==> r == [Issue(InvalidType, Some(SelectOptionMessage))]
  {
    match v
    case None => [Issue(InvalidType, Some(SelectOptionMessage))]
    case Some(s) => if IsYesNo(s) then [] else [Issue(InvalidEnumValue(s), None)]
  }

  /** `z.enum(["yes", "no"]).optional()` */
  function OptionalEnumIssues(v: Option<string>): (r: seq<Issue>)
    ensures r == [] <==> v.None? || v == Some("yes") || v == Some("no")
  {
    match v
    case None => []
    case Some(s) => if IsYesNo(s) then [] else [Issue(InvalidEnumValue(s), None)]
  }

  /** `z.boolean().default(false).refine(value => value === true, message)` */
  function TermsIssues(v: Option<bool>): (r: seq<Issue>)
    ensures r == [] <==> v == Some(true)
    ensures r != [] ==> r == [Issue(CustomCheck, Some(TermsMessage))]
    ensures v.None? ==> r == [Issue(CustomCheck, Some(TermsMessage))]
  {
    var value := match v case None => false case Some(b) => b;
    if value == true then [] else [Issue(CustomCheck, Some(TermsMessage))]
  }

  // --------------------------------------------------------- the whole form

  /** A field's raw value, by the kind of input that produces it. */
  datatype Value =
    | Text(text: Option<string>)
    | Date(date: DateInput)
    | Files(files: FileList)
    | Flag(flag: Option<bool>)

  /** The Zod schemas the object attaches to its keys. */
  datatype Rule =
    | BoundedString                    // z.string().min(1).max(50)
    | NonEmptySelect(message: string)  // z.string().nonempty(message)
    | Phone(message: string)           // z.string().refine(isValidPhoneNumber, message)
    | WordLimited(message: string)     // z.string().optional().refine(at most 100 words, message)
    | OptionalString                   // z.string().optional()
    | RequiredDate                     // z.date({ required_error })
    | RequiredYesNo                    // z.enum(["yes", "no"], { required_error })
    | OptionalYesNo                    // z.enum(["yes", "no"]).optional()
    | RequiredFile                     // zodFileValidation
    | OptionalFile                     // zodOptionalFileValidation
    | MustBeTrue                       // z.boolean().default(false).refine(value => value === true)

  /** The schema's object literal: the rule of each key. */
  function RuleOf(f: Field): Rule {
    match f
    case FirstName | LastName | MassarCode | City | GuardianFullName | ParentCNIE
      | RelationshipWithGuardian | Highschool | AverageGrade | PhysicsAverageGrade | Ranking => BoundedString
    case DateOfBirth => RequiredDate
    case Region => NonEmptySelect(RegionMessage)
    case PhoneNumber => Phone(PhoneMessage)
    case GuardianPhoneNumber => Phone(GuardianPhoneMessage)
    case SpecialConditions => WordLimited(SpecialConditionsMessage)
    case Comments => WordLimited(CommentsMessage)
    case PhysicsRanking | PreviousCompetitions => OptionalString
    case HasPreviouslyParticipated | PhysicsOlympiadsParticipation => RequiredYesNo
    case OlympiadsTrainingSelection => OptionalYesNo
    case SchoolCertificate | Grades => RequiredFile
    case ParentId | BirthCertificate | Regulations | ParentalAuthorization | ImageRights => OptionalFile
    case TermsAgreement => MustBeTrue
  }

  /** The value a submission holds under key `f`. */
  function ValueOf(s: Submission, f: Field): Value {
    match f
    case FirstName => Text(s.firstName)
    case LastName => Text(s.lastName)
    case DateOfBirth => Date(s.dateOfBirth)
    case MassarCode => Text(s.massarCode)
    case City => Text(s.city)
    case Region => Text(s.region)
    case PhoneNumber => Text(s.phoneNumber)
    case GuardianFullName => Text(s.guardianFullName)
    case ParentCNIE => Text(s.parentCNIE)
    case GuardianPhoneNumber => Text(s.guardianPhoneNumber)
    case RelationshipWithGuardian => Text(s.relationshipWithGuardian)
    case SpecialConditions => Text(s.specialConditions)
    case Highschool => Text(s.highschool)
    case AverageGrade => Text(s.averageGrade)
    case PhysicsAverageGrade => Text(s.physicsAverageGrade)
    case Ranking => Text(s.ranking)
    case PhysicsRanking => Text(s.physicsRanking)
    case HasPreviouslyParticipated => Text(s.hasPreviouslyParticipated)
    case PreviousCompetitions => Text(s.previousCompetitions)
    case PhysicsOlympiadsParticipation => Text(s.physicsOlympiadsParticipation)
    case OlympiadsTrainingSelection => Text(s.olympiadsTrainingSelection)
    case Comments => Text(s.comments)
    case ParentId => Files(s.parentId)
    case BirthCertificate => Files(s.birthCertificate)
    case SchoolCertificate => Files(s.schoolCertificate)
    case Grades => Files(s.grades)
    case Regulations => Files(s.regulations)
    case ParentalAuthorization => Files(s.parentalAuthorization)
    case ImageRights => Files(s.imageRights)
    case TermsAgreement => Flag(s.termsAgreement)
  }

  /**
   * The issues `rule` raises on `v`. A value of the wrong kind raises Zod's
   * invalid-type issue, except under `z.any()`, which takes anything.
   */
  function Apply(rule: Rule, v: Value, isValidPhone: string -> bool): seq<Issue> {
    match rule
    case BoundedString => if v.Text? then BoundedStringIssues(v.text) else [Issue(InvalidType, None)]
    case NonEmptySelect(m) => if v.Text? then SelectIssues(v.text, m) else [Issue(InvalidType, None)]
    case Phone(m) => if v.Text? then PhoneIssues(v.text, isValidPhone, m) else [Issue(InvalidType, None)]
    case WordLimited(m) => if v.Text? then WordLimitIssues(v.text, m) else [Issue(InvalidType, None)]
    case OptionalString => if v.Text? then OptionalStringIssues(v.text) else [Issue(InvalidType, None)]
    case RequiredDate => if v.Date? then DateIssues(v.date) else [Issue(InvalidType, None)]
    case RequiredYesNo => if v.Text? then RequiredEnumIssues(v.text) else [Issue(InvalidType, None)]
    case OptionalYesNo => if v.Text? then OptionalEnumIssues(v.text) else [Issue(InvalidType, None)]
    case RequiredFile => RequiredFileIssues(if v.Files? then v.files else None)
    case OptionalFile => OptionalFileIssues(if v.Files? then v.files else None)
    case MustBeTrue => if v.Flag? then TermsIssues(v.flag) else [Issue(InvalidType, None)]
  }

  /** The issues the schema's entry for field `f` raises on `s`. */
  function FieldIssues(s: Submission, f: Field, isValidPhone: string -> bool): seq<Issue> {
    Apply(RuleOf(f), ValueOf(s, f), isValidPhone)
  }

  /** The object-level `.refine((data) => true, ...)`: it never rejects. */
  predicate RecordRefinement(s: Submission) {
    true
  }

  /** How many keys the schema has. */
  const FieldCount: nat := 30

  /** The key at position `k` of the object literal, in declaration order. */
  function FieldAt(k: nat): Field
    requires k < FieldCount
  {
    match k
    case 0 => FirstName
    case 1 => LastName
    case 2 => DateOfBirth
    case 3 => MassarCode
    case 4 => City
    case 5 => Region
    case 6 => PhoneNumber
    case 7 => GuardianFullName
    case 8 => ParentCNIE
    case 9 => GuardianPhoneNumber
    case 10 => RelationshipWithGuardian
    case 11 => SpecialConditions
    case 12 => Highschool
    case 13 => AverageGrade
    case 14 => PhysicsAverageGrade
    case 15 => Ranking
    case 16 => PhysicsRanking
    case 17 => HasPreviouslyParticipated
    case 18 => PreviousCompetitions
    case 19 => PhysicsOlympiadsParticipation
    case 20 => OlympiadsTrainingSelection
    case 21 => Comments
    case 22 => ParentId
    case 23 => BirthCertificate
    case 24 => SchoolCertificate
    case 25 => Grades
    case 26 => Regulations
    case 27 => ParentalAuthorization
    case 28 => ImageRights
    case _ => TermsAgreement
  }

  /** The position of key `f` in the object literal. */
  function Position(f: Field): (k: nat)
    ensures k < FieldCount && FieldAt(k) == f
  {
    match f
    case FirstName => 0
    case LastName => 1
    case DateOfBirth => 2
    case MassarCode => 3
    case City => 4
    case Region => 5
    case PhoneNumber => 6
    case GuardianFullName => 7
    case ParentCNIE => 8
    case GuardianPhoneNumber => 9
    case RelationshipWithGuardian => 10
    case SpecialConditions => 11
    case Highschool => 12
    case AverageGrade => 13
    case PhysicsAverageGrade => 14
    case Ranking => 15
    case PhysicsRanking => 16
    case HasPreviouslyParticipated => 17
    case PreviousCompetitions => 18
    case PhysicsOlympiadsParticipation => 19
    case OlympiadsTrainingSelection => 20
    case Comments => 21
    case ParentId => 22
    case BirthCertificate => 23
    case SchoolCertificate => 24
    case Grades => 25
    case Regulations => 26
    case ParentalAuthorization => 27
    case ImageRights => 28
    case TermsAgreement => 29
  }

  /** The issues of one field, each tagged with that field. */
  function Tagged(f: Field, issues: seq<Issue>): (errors: seq<(Field, Issue)>)
    ensures |errors| == |issues|
    ensures forall g, i :: (g, i) in errors <==> g == f && i in issues
  {
    var r := seq(|issues|, k requires 0 <= k < |issues| => (f, issues[k]));
    assert forall k :: 0 <= k < |issues| ==> r[k] == (f, issues[k]);
    r
  }

  /** The tagged issues of the keys from position `k` on, in declaration order. */
  function IssuesFrom(s: Submission, k: nat, isValidPhone: string -> bool): (errors: seq<(Field, Issue)>)
    requires k <= FieldCount
    ensures forall f, i {:trigger (f, i) in errors} ::
      (f, i) in errors <==> k <= Position(f) && i in FieldIssues(s, f, isValidPhone)
    decreases FieldCount - k
  {
    if k == FieldCount then []
    else
      var f := FieldAt(k);
      assert forall g :: Position(g) == k <==> g == f;
      Tagged(f, FieldIssues(s, f, isValidPhone)) + IssuesFrom(s, k + 1, isValidPhone)
  }

  /**
   * `applicationSchema.safeParse`: every issue of every field, collected; the
   * record-level refinement adds its issue only if it fails, which it never does.
   */
  function Validate(s: Submission, isValidPhone: string -> bool): (errors: seq<(Field, Issue)>)
    ensures forall f, i {:trigger (f, i) in errors} :: (f, i) in errors <==> i in FieldIssues(s, f, isValidPhone)
  {
    IssuesFrom(s, 0, isValidPhone)
    + (if RecordRefinement(s) then []
       else [(OlympiadsTrainingSelection, Issue(CustomCheck, Some(TrainingSelectionMessage)))])
  }
}
