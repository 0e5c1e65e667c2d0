/**
 * What the application schema promises, stated against a direct reading of
 * its rules and proved about the validator.
 */
module ApplicationProperties {
  import opened Wrappers
  import opened JsString
  import opened ApplicationSchema

  // ------------------------------------------------ the rules, read directly

  predicate Bounded(v: Option<string>) {
    v.Some? && MinLength <= |v.value| <= MaxLength
  }

  predicate YesNo(v: Option<string>) {
    v == Some("yes") || v == Some("no")
  }

  predicate WithinWordLimit(v: Option<string>) {
    v.None? || v.value == "" || Occurrences(v.value, ' ') < MaxWords
  }

  predicate FileAccepted(files: FileList) {
    && files.Some? && |files.value| == 1
    && files.value[0].mimeType.Some? && IsAcceptedType(files.value[0].mimeType.value)
    && files.value[0].size.Some? && files.value[0].size.value <= MaxUploadSize
  }

  /** The conjunction of the schema's per-field rules, each read directly by `FieldRule`. */
  predicate Accepts(s: Submission, isValidPhone: string -> bool) {
    forall f :: FieldRule(s, f, isValidPhone)
  }

  /** Whether a raw value is `undefined`. */
  predicate IsUndefined(v: Value) {
    match v
    case Text(t) => t.None?
    case Date(d) => d.DateAbsent?
    case Files(x) => x.None?
    case Flag(b) => b.None?
  }

  /** Whether field `f` of `s` is undefined. */
  predicate Absent(s: Submission, f: Field) {
    IsUndefined(ValueOf(s, f))
  }

  /** The fields the schema lets a candidate leave undefined. */
  const OptionalFields: set<Field> := {
    SpecialConditions, PhysicsRanking, PreviousCompetitions, OlympiadsTrainingSelection, Comments,
    ParentId, BirthCertificate, Regulations, ParentalAuthorization, ImageRights
  }

  /** The fields whose rule accepts every value. */
  const UnconstrainedFields: set<Field> := {
    PhysicsRanking, PreviousCompetitions,
    ParentId, BirthCertificate, Regulations, ParentalAuthorization, ImageRights
  }

  // ------------------------------------------------------- the whole record

  /** No error at all exactly when no field raises an issue. */
  lemma NoErrorsIffNoFieldIssues(s: Submission, isValidPhone: string -> bool)
    ensures Validate(s, isValidPhone) == [] <==> forall f :: FieldIssues(s, f, isValidPhone) == []
  {
    var errors := Validate(s, isValidPhone);
    if errors != [] {
      assert errors[0] in errors;
      assert errors[0].1 in FieldIssues(s, errors[0].0, isValidPhone);
    }
    if exists f :: FieldIssues(s, f, isValidPhone) != [] {
      var f :| FieldIssues(s, f, isValidPhone) != [];
      var own := FieldIssues(s, f, isValidPhone);
      assert own[0] in own;
      assert (f, own[0]) in errors;
    }
  }

  /**
   * `Validate`'s own postcondition for one (field, issue) pair. It states
   * nothing new: callers use it so that their proofs instantiate that
   * quantifier for just this pair, which keeps them within the resource limit.
   */
  lemma ErrorOfField(s: Submission, f: Field, i: Issue, isValidPhone: string -> bool)
    ensures (f, i) in Validate(s, isValidPhone) <==> i in FieldIssues(s, f, isValidPhone)
  {
  }

  /** The direct reading of field `f`'s rule. */
  predicate FieldRule(s: Submission, f: Field, isValidPhone: string -> bool) {
    match f
    case FirstName => Bounded(s.firstName)
    case LastName => Bounded(s.lastName)
    case DateOfBirth => s.dateOfBirth.DateValue?
    case MassarCode => Bounded(s.massarCode)
    case City => Bounded(s.city)
    case Region => s.region.Some? && s.region.value != ""
    case PhoneNumber => s.phoneNumber.Some? && isValidPhone(s.phoneNumber.value)
    case GuardianFullName => Bounded(s.guardianFullName)
    case ParentCNIE => Bounded(s.parentCNIE)
    case GuardianPhoneNumber => s.guardianPhoneNumber.Some? && isValidPhone(s.guardianPhoneNumber.value)
    case RelationshipWithGuardian => Bounded(s.relationshipWithGuardian)
    case SpecialConditions => WithinWordLimit(s.specialConditions)
    case Highschool => Bounded(s.highschool)
    case AverageGrade => Bounded(s.averageGrade)
    case PhysicsAverageGrade => Bounded(s.physicsAverageGrade)
    case Ranking => Bounded(s.ranking)
    case HasPreviouslyParticipated => YesNo(s.hasPreviouslyParticipated)
    case PhysicsOlympiadsParticipation => YesNo(s.physicsOlympiadsParticipation)
    case OlympiadsTrainingSelection => s.olympiadsTrainingSelection.None? || YesNo(s.olympiadsTrainingSelection)
    case Comments => WithinWordLimit(s.comments)
    case SchoolCertificate => FileAccepted(s.schoolCertificate)
    case Grades => FileAccepted(s.grades)
    case TermsAgreement => s.termsAgreement == Some(true)
    case PhysicsRanking | PreviousCompetitions
      | ParentId | BirthCertificate | Regulations | ParentalAuthorization | ImageRights => true
  }

  /** Each field raises no issue exactly when its rule, read directly, holds. */
  lemma FieldIssuesIffRule(s: Submission, f: Field, isValidPhone: string -> bool)
    ensures FieldIssues(s, f, isValidPhone) == [] <==> FieldRule(s, f, isValidPhone)
  {
  }

  /** A submission validates exactly when it satisfies every per-field rule. */
  lemma ValidIffAccepts(s: Submission, isValidPhone: string -> bool)
    ensures Validate(s, isValidPhone) == [] <==> Accepts(s, isValidPhone)
  {
    NoErrorsIffNoFieldIssues(s, isValidPhone);
    forall f ensures FieldIssues(s, f, isValidPhone) == [] <==> FieldRule(s, f, isValidPhone) {
      FieldIssuesIffRule(s, f, isValidPhone);
    }
  }

  /** Leaving a field undefined passes exactly for the optional fields. */
  lemma AbsentFieldIssues(s: Submission, f: Field, isValidPhone: string -> bool)
    requires Absent(s, f)
    ensures FieldIssues(s, f, isValidPhone) == [] <==> f in OptionalFields
  {
    FieldIssuesIffRule(s, f, isValidPhone);
  }

  /** The unconstrained fields never raise an issue, whatever their value. */
  lemma UnconstrainedFieldsPass(s: Submission, f: Field, isValidPhone: string -> bool)
    requires f in UnconstrainedFields
    ensures FieldIssues(s, f, isValidPhone) == []
  {
  }

  /**
   * The record-level refinement never fires: its message is never reported,
   * and the training selection is judged by its enum rule alone.
   */
  lemma RefinementAddsNothing(s: Submission, isValidPhone: string -> bool)
    ensures (OlympiadsTrainingSelection, Issue(CustomCheck, Some(TrainingSelectionMessage))) !in Validate(s, isValidPhone)
    ensures forall i :: (OlympiadsTrainingSelection, i) in Validate(s, isValidPhone) <==>
      s.olympiadsTrainingSelection.Some? && !IsYesNo(s.olympiadsTrainingSelection.value)
      && i == Issue(InvalidEnumValue(s.olympiadsTrainingSelection.value), None)
  {
    var v := s.olympiadsTrainingSelection;
    var own := FieldIssues(s, OlympiadsTrainingSelection, isValidPhone);
    assert own == OptionalEnumIssues(v);
    assert own == if v.Some? && !IsYesNo(v.value) then [Issue(InvalidEnumValue(v.value), None)] else [];
    forall i ensures (OlympiadsTrainingSelection, i) in Validate(s, isValidPhone) <==> i in own {
      ErrorOfField(s, OlympiadsTrainingSelection, i, isValidPhone);
    }
  }

  /**
   * An empty first name in an otherwise acceptable submission yields exactly
   * one error, the too-short issue on `firstName`.
   */
  lemma EmptyFirstNameOnlyError(s: Submission, isValidPhone: string -> bool)
    requires Accepts(s, isValidPhone)
    ensures var errors := Validate(s.(firstName := Some("")), isValidPhone);
      && errors != []
      && forall f, i :: (f, i) in errors <==> f == FirstName && i == Issue(TooSmall(1), None)
    ensures Validate(s.(firstName := Some("")), isValidPhone) == [(FirstName, Issue(TooSmall(1), None))]
  {
    var t := s.(firstName := Some(""));
    forall f, i ensures (f, i) in Validate(t, isValidPhone) <==> f == FirstName && i == Issue(TooSmall(1), None) {
      ErrorOfField(t, f, i, isValidPhone);
      EmptyFirstNameFieldIssues(s, f, isValidPhone);
    }
    ErrorOfField(t, FirstName, Issue(TooSmall(1), None), isValidPhone);
    EmptyFirstNameFieldIssues(s, FirstName, isValidPhone);
    // the keys after firstName contribute nothing
    forall f | 1 <= Position(f) ensures FieldIssues(t, f, isValidPhone) == [] {
      EmptyFirstNameFieldIssues(s, f, isValidPhone);
    }
    NoIssuesFrom(t, 1, isValidPhone);
    var tagged := Tagged(FirstName, FieldIssues(t, FirstName, isValidPhone));
    assert tagged[0] in tagged;
    assert IssuesFrom(t, 0, isValidPhone) == tagged + IssuesFrom(t, 1, isValidPhone);
  }

  /** The keys from position `k` on give no error when none of them raises an issue. */
  lemma {:induction false} NoIssuesFrom(s: Submission, k: nat, isValidPhone: string -> bool)
    requires k <= FieldCount
    requires forall f :: k <= Position(f) ==> FieldIssues(s, f, isValidPhone) == []
    ensures IssuesFrom(s, k, isValidPhone) == []
    decreases FieldCount - k
  {
    if k < FieldCount {
      PositionOfFieldAt(k);
      NoIssuesFrom(s, k + 1, isValidPhone);
    }
  }

  /** `Position` and `FieldAt` are inverse. */
  lemma PositionOfFieldAt(k: nat)
    requires k < FieldCount
    ensures Position(FieldAt(k)) == k
  {
  }

  /** After emptying `firstName`, only that field raises an issue, the too-short one. */
  lemma EmptyFirstNameFieldIssues(s: Submission, f: Field, isValidPhone: string -> bool)
    requires Accepts(s, isValidPhone)
    ensures forall i ::
      i in FieldIssues(s.(firstName := Some("")), f, isValidPhone) <==> f == FirstName && i == Issue(TooSmall(1), None)
    ensures FieldIssues(s.(firstName := Some("")), f, isValidPhone)
      == if f == FirstName then [Issue(TooSmall(1), None)] else []
  {
    if f != FirstName {
      assert FieldRule(s, f, isValidPhone);
      FieldIssuesIffRule(s, f, isValidPhone);
      assert FieldIssues(s.(firstName := Some("")), f, isValidPhone) == FieldIssues(s, f, isValidPhone);
    }
  }

  // ------------------------------------------------------------ the uploads

  /** An upload of exactly 15 MiB passes; one byte more raises only the size issue. */
  lemma FileSizeBoundary(t: string)
    requires IsAcceptedType(t)
    ensures RequiredFileIssues(Some([FileMeta(Some(t), Some(15728640))])) == []
    ensures RequiredFileIssues(Some([FileMeta(Some(t), Some(15728641))]))
      == [Issue(CustomCheck, Some(FileSizeMessage))]
  {
  }

  /** A type outside the list always raises the type issue. */
  lemma UnlistedTypeFails(files: seq<FileMeta>)
    requires |files| > 0 && files[0].mimeType.Some? && !IsAcceptedType(files[0].mimeType.value)
    ensures Issue(CustomCheck, Some(FileTypeMessage)) in RequiredFileIssues(Some(files))
  {
  }

  /** Only the first file of a list is looked at: the rest affect nothing but the count. */
  lemma OnlyFirstFileChecked(files: seq<FileMeta>, others: seq<FileMeta>)
    requires |files| == |others| > 0 && files[0] == others[0]
    ensures RequiredFileIssues(Some(files)) == RequiredFileIssues(Some(others))
  {
  }

  /** An empty list is truthy, so it fails all three refinements. */
  lemma EmptyFileListIssues()
    ensures RequiredFileIssues(Some([])) == [
      Issue(CustomCheck, Some(FileRequiredMessage)),
      Issue(CustomCheck, Some(FileTypeMessage)),
      Issue(CustomCheck, Some(FileSizeMessage))]
  {
  }

  // ----------------------------------------------------------- the free text

  /** A text of 100 space-separated pieces passes the word limit. */
  lemma {:induction false} HundredWordsPass(words: seq<string>, message: string)
    requires |words| == MaxWords
    requires forall k :: 0 <= k < |words| ==> ' ' !in words[k]
    ensures WordLimitIssues(Some(Join(words, ' ')), message) == []
  {
    SplitJoin(words, ' ');
    SplitCount(Join(words, ' '), ' ');
  }

  /**
   * A text of 101 space-separated pieces fails it; the pieces may be empty,
   * so 100 consecutive spaces fail too.
   */
  lemma {:induction false} HundredOneWordsFail(words: seq<string>, message: string)
    requires |words| == MaxWords + 1
    requires forall k :: 0 <= k < |words| ==> ' ' !in words[k]
    ensures WordLimitIssues(Some(Join(words, ' ')), message) == [Issue(CustomCheck, Some(message))]
  {
    var text := Join(words, ' ');
    SplitJoin(words, ' ');
    SplitCount(text, ' ');
    assert Occurrences("", ' ') == 0;
  }
}
