/**
 * The checks that run before a horse is created or updated. Field checks produce
 * validation messages, parent checks produce conflict messages; all of them run,
 * and the messages are reported together. `today` stands for LocalDate.now().
 */
module HorseValidator {
  import opened Wrappers
  import opened Text
  import opened Dto

  const MaxNameLength := 255
  const MaxDescriptionLength := 4095

  const DobEmptyMsg := "Birthdate of Horse can't be empty"
  const DobFutureMsg := "Horse Date of birth can't be in the future"
  const NameEmptyMsg := "Name of Horse can't be empty"
  const NameTooLongMsg := "Horse name is too long: longer than 255 characters"
  const SexEmptyMsg := "Sex of Horse can't be empty"
  const DescBlankMsg := "Horse description is given but blank"
  const DescTooLongMsg := "Horse description too long: longer than 4095 characters"
  const NoIdMsg := "No Id given"

  const FatherFemaleMsg := "Father cannot be Female"
  const FatherBirthdayMsg := "Fathers birthday cannot be after children birthday "
  const MotherMaleMsg := "Mother cannot be Male "
  const MotherBirthdayMsg := "Mothers birthday cannot be after children birthday "
  const SameSexMsg := "Horse parents cannot be of the same sex "
  const ChildBirthdayMsg := "Cannot change birthday to given date because there are one or multiple children of this horse with birthdays earlier than this date"
  const SexChangeMsg := "Cannot change Sex of this horse because it is a parent to at least one Horse"

  const CreateSummary := "Error(s) creating Horse"
  const UpdateSummary := "Error(s) updating Horse"
  const ParentsSummary := "Error validating Parents of horse"
  const RelationSummary := "Error validating Parent-Child relation"

  function OwnerNotFoundMsg(id: int): string
  {
    "Owner " + IntToString(id) + " referenced by Horse not found"
  }

  // ---------------------------------------------------------------------------
  // What a valid horse is, field by field

  predicate DateOfBirthValid(dob: Option<int>, today: int)
  {
    dob.Some? && dob.value <= today
  }

  predicate NameValid(name: Option<string>)
  {
    name.Some? && !IsBlank(name.value) && |name.value| <= MaxNameLength
  }

  predicate DescriptionValid(desc: Option<string>)
  {
    desc.None? || (!IsBlank(desc.value) && |desc.value| <= MaxDescriptionLength)
  }

  predicate FieldsValid(dob: Option<int>, name: Option<string>, sex: Option<Sex>, desc: Option<string>, today: int)
  {
    DateOfBirthValid(dob, today) && NameValid(name) && sex.Some? && DescriptionValid(desc)
  }

  // ---------------------------------------------------------------------------
  // Field checks: each returns a fresh list of messages

  function DateOfBirthErrors(dob: Option<int>, today: int): (r: seq<string>)
    ensures |r| <= 1
    ensures r == [] <==> DateOfBirthValid(dob, today)
    ensures dob.None? ==> r == [DobEmptyMsg]
    ensures dob.Some? && dob.value > today ==> r == [DobFutureMsg]
  {
    if dob.None? then [DobEmptyMsg]
    else if dob.value > today then [DobFutureMsg]
    else []
  }

  function NameErrors(name: Option<string>): (r: seq<string>)
    ensures |r| <= 1
    ensures r == [] <==> NameValid(name)
    ensures name.None? || IsBlank(name.value) ==> r == [NameEmptyMsg]
    ensures name.Some? && !IsBlank(name.value) && |name.value| > MaxNameLength ==> r == [NameTooLongMsg]
  {
    if name.None? || IsBlank(name.value) then [NameEmptyMsg]
    else if |name.value| > MaxNameLength then [NameTooLongMsg]
    else []
  }

  function SexErrors(sex: Option<Sex>): (r: seq<string>)
    ensures r == [] <==> sex.Some?
    ensures sex.None? ==> r == [SexEmptyMsg]
  {
    if sex.None? then [SexEmptyMsg] else []
  }

  /** The blank check and the length check are independent: both may fire. */
  function DescriptionErrors(desc: Option<string>): (r: seq<string>)
    ensures |r| <= 2
    ensures r == [] <==> DescriptionValid(desc)
    ensures desc.None? ==> r == []
    ensures DescBlankMsg in r <==> desc.Some? && IsBlank(desc.value)
    ensures DescTooLongMsg in r <==> desc.Some? && |desc.value| > MaxDescriptionLength
  {
    if desc.None? then []
    else
      (if IsBlank(desc.value) then [DescBlankMsg] else [])
      + (if |desc.value| > MaxDescriptionLength then [DescTooLongMsg] else [])
  }

  function IdErrors(id: Option<int>): (r: seq<string>)
    ensures r == [] <==> id.Some?
    ensures id.None? ==> r == [NoIdMsg]
  {
    if id.None? then [NoIdMsg] else []
  }

  /** The validation messages, in the order the checks run: date, name, sex, description. */
  function FieldErrors(dob: Option<int>, name: Option<string>, sex: Option<Sex>, desc: Option<string>, today: int): (r: seq<string>)
    ensures r == [] <==> FieldsValid(dob, name, sex, desc, today)
    ensures DobFutureMsg in r <==> dob.Some? && dob.value > today
    ensures DescBlankMsg in r <==> desc.Some? && IsBlank(desc.value)
  {
    DateOfBirthErrors(dob, today) + NameErrors(name) + SexErrors(sex) + DescriptionErrors(desc)
  }

  // ---------------------------------------------------------------------------
  // Owner reference: a present owner that cannot be looked up is fatal

  predicate OwnerResolves(owner: Option<OwnerDto>, owners: map<int, OwnerDto>)
  {
    owner.None? || owner.value.id in owners
  }

  function OwnerCheck(owner: Option<OwnerDto>, owners: map<int, OwnerDto>): (r: Outcome)
    ensures r.Pass? <==> OwnerResolves(owner, owners)
    ensures r.Fail? ==> r == Fail(FatalError(OwnerNotFoundMsg(owner.value.id)))
  {
    if owner.Some? && owner.value.id !in owners then Fail(FatalError(OwnerNotFoundMsg(owner.value.id)))
    else Pass
  }

  // ---------------------------------------------------------------------------
  // Parent consistency: five independent conflict rules

  predicate FatherIsFemale(father: Option<HorseParentDto>)
  {
    father.Some? && father.value.sex == Some(Female)
  }

  predicate MotherIsMale(mother: Option<HorseParentDto>)
  {
    mother.Some? && mother.value.sex == Some(Male)
  }

  /** The parent was born on or after the child (checked only when the child's date is given). */
  predicate BornNotBefore(parent: Option<HorseParentDto>, childDob: Option<int>)
  {
    parent.Some? && childDob.Some? && parent.value.dateOfBirth.Some?
    && parent.value.dateOfBirth.value >= childDob.value
  }

  predicate ParentsSameSex(mother: Option<HorseParentDto>, father: Option<HorseParentDto>)
  {
    mother.Some? && father.Some? && mother.value.sex == father.value.sex
  }

  predicate ParentsConsistent(mother: Option<HorseParentDto>, father: Option<HorseParentDto>, childDob: Option<int>)
  {
    && !FatherIsFemale(father) && !BornNotBefore(father, childDob)
    && !MotherIsMale(mother) && !BornNotBefore(mother, childDob)
    && !ParentsSameSex(mother, father)
  }

  /** The parent rules compare the parents' dates only when the child's date is given, and then dereference them. */
  predicate ParentDatesKnown(mother: Option<HorseParentDto>, father: Option<HorseParentDto>, childDob: Option<int>)
  {
    childDob.Some? ==>
      (mother.Some? ==> mother.value.dateOfBirth.Some?) && (father.Some? ==> father.value.dateOfBirth.Some?)
  }

  function ParentConflicts(mother: Option<HorseParentDto>, father: Option<HorseParentDto>, childDob: Option<int>): (r: seq<string>)
    ensures |r| <= 5
    ensures r == [] <==> ParentsConsistent(mother, father, childDob)
    ensures FatherFemaleMsg in r <==> FatherIsFemale(father)
    ensures FatherBirthdayMsg in r <==> BornNotBefore(father, childDob)
    ensures MotherMaleMsg in r <==> MotherIsMale(mother)
    ensures MotherBirthdayMsg in r <==> BornNotBefore(mother, childDob)
    ensures SameSexMsg in r <==> ParentsSameSex(mother, father)
  {
    (if FatherIsFemale(father) then [FatherFemaleMsg] else [])
    + (if BornNotBefore(father, childDob) then [FatherBirthdayMsg] else [])
    + (if MotherIsMale(mother) then [MotherMaleMsg] else [])
    + (if BornNotBefore(mother, childDob) then [MotherBirthdayMsg] else [])
    + (if ParentsSameSex(mother, father) then [SameSexMsg] else [])
  }

  /** validateParents: throws a conflict carrying every rule that fired. */
  method ValidateParents(mother: Option<HorseParentDto>, father: Option<HorseParentDto>, childDob: Option<int>)
    returns (r: Outcome)
    requires ParentDatesKnown(mother, father, childDob)
    ensures r.Pass? <==> ParentsConsistent(mother, father, childDob)
    ensures r.Fail? ==> r == Fail(ConflictError(ParentsSummary, ParentConflicts(mother, father, childDob)))
  {
    var conflictErrors: seq<string> := [];
    if father.Some? {
      if father.value.sex == Some(Female) {
        conflictErrors := conflictErrors + [FatherFemaleMsg];
      }
      if childDob.Some? {
        if father.value.dateOfBirth.value >= childDob.value {
          conflictErrors := conflictErrors + [FatherBirthdayMsg];
        }
      }
    }
    assert conflictErrors == (if FatherIsFemale(father) then [FatherFemaleMsg] else [])
      + (if BornNotBefore(father, childDob) then [FatherBirthdayMsg] else []);
    if mother.Some? {
      if mother.value.sex == Some(Male) {
        conflictErrors := conflictErrors + [MotherMaleMsg];
      }
      if childDob.Some? {
        if mother.value.dateOfBirth.value >= childDob.value {
          conflictErrors := conflictErrors + [MotherBirthdayMsg];
        }
      }
    }
    assert conflictErrors == (if FatherIsFemale(father) then [FatherFemaleMsg] else [])
      + (if BornNotBefore(father, childDob) then [FatherBirthdayMsg] else [])
      + (if MotherIsMale(mother) then [MotherMaleMsg] else [])
      + (if BornNotBefore(mother, childDob) then [MotherBirthdayMsg] else []);
    if father.Some? && mother.Some? && father.value.sex == mother.value.sex {
      conflictErrors := conflictErrors + [SameSexMsg];
    }
    assert conflictErrors == ParentConflicts(mother, father, childDob);
    if conflictErrors != [] {
      return Fail(ConflictError(ParentsSummary, conflictErrors));
    }
    return Pass;
  }

  // ---------------------------------------------------------------------------
  // The verdicts: fatal first, then validation errors, then conflicts

  function Verdict(summary: string, owner: Outcome, validationErrors: seq<string>, conflictErrors: seq<string>): Outcome
  {
    if owner.Fail? then owner
    else if validationErrors != [] then Fail(ValidationError(summary, validationErrors))
    else if conflictErrors != [] then Fail(ConflictError(summary, conflictErrors))
    else Pass
  }

  function CreationVerdict(h: HorseCreateDto, today: int, owners: map<int, OwnerDto>): (r: Outcome)
    ensures r.Pass? <==>
      OwnerResolves(h.owner, owners) && FieldsValid(h.dateOfBirth, h.name, h.sex, h.description, today)
      && ParentsConsistent(h.mother, h.father, h.dateOfBirth)
    ensures !OwnerResolves(h.owner, owners) ==> r.Fail? && r.error.FatalError?
    ensures OwnerResolves(h.owner, owners) && !FieldsValid(h.dateOfBirth, h.name, h.sex, h.description, today) ==>
      r == Fail(ValidationError(CreateSummary, FieldErrors(h.dateOfBirth, h.name, h.sex, h.description, today)))
    ensures (OwnerResolves(h.owner, owners) && FieldsValid(h.dateOfBirth, h.name, h.sex, h.description, today)
      && !ParentsConsistent(h.mother, h.father, h.dateOfBirth)) ==>
      r == Fail(ConflictError(CreateSummary, ParentConflicts(h.mother, h.father, h.dateOfBirth)))
  {
    Verdict(CreateSummary, OwnerCheck(h.owner, owners),
      FieldErrors(h.dateOfBirth, h.name, h.sex, h.description, today),
      ParentConflicts(h.mother, h.father, h.dateOfBirth))
  }

  function UpdateErrors(h: HorseDetailDto, today: int): (r: seq<string>)
    ensures r == [] <==> FieldsValid(h.dateOfBirth, h.name, h.sex, h.description, today) && h.id.Some?
    ensures NoIdMsg in r <==> h.id.None?
  {
    FieldErrors(h.dateOfBirth, h.name, h.sex, h.description, today) + IdErrors(h.id)
  }

  function UpdateVerdict(h: HorseDetailDto, today: int, owners: map<int, OwnerDto>): (r: Outcome)
    ensures r.Pass? <==>
      OwnerResolves(h.owner, owners) && FieldsValid(h.dateOfBirth, h.name, h.sex, h.description, today)
      && h.id.Some? && ParentsConsistent(h.mother, h.father, h.dateOfBirth)
    ensures !OwnerResolves(h.owner, owners) ==> r.Fail? && r.error.FatalError?
    ensures OwnerResolves(h.owner, owners) && h.id.None? ==>
      r.Fail? && r.error.ValidationError? && NoIdMsg in r.error.errors
    ensures OwnerResolves(h.owner, owners) && UpdateErrors(h, today) != [] ==>
      r == Fail(ValidationError(UpdateSummary, UpdateErrors(h, today)))
    ensures (OwnerResolves(h.owner, owners) && UpdateErrors(h, today) == []
      && !ParentsConsistent(h.mother, h.father, h.dateOfBirth)) ==>
      r == Fail(ConflictError(UpdateSummary, ParentConflicts(h.mother, h.father, h.dateOfBirth)))
  {
    Verdict(UpdateSummary, OwnerCheck(h.owner, owners), UpdateErrors(h, today),
      ParentConflicts(h.mother, h.father, h.dateOfBirth))
  }

  // ---------------------------------------------------------------------------
  // The entry points: accumulate, then throw

  method ValidateForCreation(h: HorseCreateDto, today: int, owners: map<int, OwnerDto>) returns (r: Outcome)
    requires ParentDatesKnown(h.mother, h.father, h.dateOfBirth)
    ensures r == CreationVerdict(h, today, owners)
  {
    var conflictErrors: seq<string> := [];
    var validationErrors: seq<string> := [];
    validationErrors := validationErrors + DateOfBirthErrors(h.dateOfBirth, today);
    validationErrors := validationErrors + NameErrors(h.name);
    validationErrors := validationErrors + SexErrors(h.sex);
    validationErrors := validationErrors + DescriptionErrors(h.description);
    assert validationErrors == FieldErrors(h.dateOfBirth, h.name, h.sex, h.description, today);
    var owner := OwnerCheck(h.owner, owners);
    if owner.Fail? {
      return owner;
    }
    var parents := ValidateParents(h.mother, h.father, h.dateOfBirth);
    if parents.Fail? && parents.error.ConflictError? {
      conflictErrors := conflictErrors + parents.error.errors;
    }
    assert conflictErrors == ParentConflicts(h.mother, h.father, h.dateOfBirth);
    if validationErrors != [] {
      return Fail(ValidationError(CreateSummary, validationErrors));
    }
    if conflictErrors != [] {
      return Fail(ConflictError(CreateSummary, conflictErrors));
    }
    return Pass;
  }

  method ValidateForUpdate(h: HorseDetailDto, today: int, owners: map<int, OwnerDto>) returns (r: Outcome)
    requires ParentDatesKnown(h.mother, h.father, h.dateOfBirth)
    ensures r == UpdateVerdict(h, today, owners)
  {
    var conflictErrors: seq<string> := [];
    var validationErrors: seq<string> := [];
    validationErrors := validationErrors + DateOfBirthErrors(h.dateOfBirth, today);
    validationErrors := validationErrors + NameErrors(h.name);
    validationErrors := validationErrors + SexErrors(h.sex);
    validationErrors := validationErrors + DescriptionErrors(h.description);
    validationErrors := validationErrors + IdErrors(h.id);
    assert validationErrors == UpdateErrors(h, today);
    var owner := OwnerCheck(h.owner, owners);
    if owner.Fail? {
      return owner;
    }
    var parents := ValidateParents(h.mother, h.father, h.dateOfBirth);
    if parents.Fail? && parents.error.ConflictError? {
      conflictErrors := conflictErrors + parents.error.errors;
    }
    assert conflictErrors == ParentConflicts(h.mother, h.father, h.dateOfBirth);
    if validationErrors != [] {
      return Fail(ValidationError(UpdateSummary, validationErrors));
    }
    if conflictErrors != [] {
      return Fail(ConflictError(UpdateSummary, conflictErrors));
    }
    return Pass;
  }

  // ---------------------------------------------------------------------------
  // Retroactive check for a horse that already has children

  /** Some child, or today, comes strictly before the parent's proposed date of birth. */
  predicate BirthdayConflict(children: seq<HorseDetailDto>, parent: HorseDetailDto, today: int)
    requires parent.dateOfBirth.Some?
  {
    || today < parent.dateOfBirth.value
    || exists i | 0 <= i < |children| :: children[i].dateOfBirth.Some? && children[i].dateOfBirth.value < parent.dateOfBirth.value
  }

  function RelationConflicts(children: seq<HorseDetailDto>, parent: HorseDetailDto, oldSex: Sex, today: int): seq<string>
    requires parent.dateOfBirth.Some?
  {
    (if BirthdayConflict(children, parent, today) then [ChildBirthdayMsg] else [])
    + (if parent.sex != Some(oldSex) then [SexChangeMsg] else [])
  }

  /**
   * validateParentChildRelation: the earliest of today and the children's birthdays
   * may not lie before the parent's new birthday (equal is allowed), and the sex of a
   * parent may not change.
   */
  method ValidateParentChildRelation(children: seq<HorseDetailDto>, parent: HorseDetailDto, oldSex: Sex, today: int)
    returns (r: Outcome)
    requires forall i | 0 <= i < |children| :: children[i].dateOfBirth.Some?
    requires parent.dateOfBirth.Some?
    ensures r.Pass? <==> !BirthdayConflict(children, parent, today) && parent.sex == Some(oldSex)
    ensures r.Fail? ==> r == Fail(ConflictError(RelationSummary, RelationConflicts(children, parent, oldSex, today)))
  {
    var conflictErrors: seq<string> := [];
    var earliest := today;
    for i := 0 to |children|
      invariant earliest <= today
      invariant forall j | 0 <= j < i :: earliest <= children[j].dateOfBirth.value
      invariant earliest == today || exists j | 0 <= j < i :: earliest == children[j].dateOfBirth.value
    {
      if children[i].dateOfBirth.value < earliest {
        earliest := children[i].dateOfBirth.value;
      }
    }
    if earliest < parent.dateOfBirth.value {
      conflictErrors := conflictErrors + [ChildBirthdayMsg];
    }
    if parent.sex != Some(oldSex) {
      conflictErrors := conflictErrors + [SexChangeMsg];
    }
    assert conflictErrors == RelationConflicts(children, parent, oldSex, today);
    if conflictErrors != [] {
      return Fail(ConflictError(RelationSummary, conflictErrors));
    }
    return Pass;
  }

  // ---------------------------------------------------------------------------
  // Properties of the verdicts

  /**
   * A horse with a future birthday and an empty description is refused with exactly
   * the future-date message followed by the blank-description message, and no conflict.
   */
  lemma FutureReportedBeforeBlank(h: HorseCreateDto, today: int, owners: map<int, OwnerDto>)
    requires h.dateOfBirth.Some? && h.dateOfBirth.value > today
    requires NameValid(h.name) && h.sex.Some? && h.description == Some("")
    requires OwnerResolves(h.owner, owners)
    ensures CreationVerdict(h, today, owners) == Fail(ValidationError(CreateSummary, [DobFutureMsg, DescBlankMsg]))
  {
    assert IsBlank("");
    assert DescriptionErrors(h.description) == [DescBlankMsg];
    assert FieldErrors(h.dateOfBirth, h.name, h.sex, h.description, today)
        == [DobFutureMsg] + [] + [] + [DescBlankMsg];
    assert [DobFutureMsg] + [] + [] + [DescBlankMsg] == [DobFutureMsg, DescBlankMsg];
  }

  /** A description that is blank and too long reports both messages, blank first. */
  lemma BlankAndTooLongBothFire(n: nat)
    requires n > MaxDescriptionLength
    ensures DescriptionErrors(Some(seq(n, _ => ' '))) == [DescBlankMsg, DescTooLongMsg]
  {
    var d := seq(n, _ => ' ');
    assert forall i | 0 <= i < |d| :: IsWhitespace(d[i]);
  }

  /** Validation errors win: whatever the parents, a horse with bad fields never gets a conflict verdict. */
  lemma ValidationWinsOverConflicts(h: HorseCreateDto, today: int, owners: map<int, OwnerDto>)
    requires OwnerResolves(h.owner, owners)
    requires !FieldsValid(h.dateOfBirth, h.name, h.sex, h.description, today)
    ensures CreationVerdict(h, today, owners).Fail?
    ensures CreationVerdict(h, today, owners).error.ValidationError?
    ensures CreationVerdict(h, today, owners).error.errors == FieldErrors(h.dateOfBirth, h.name, h.sex, h.description, today)
  {
  }

  /** Creation never looks at an id; the update verdict is the creation verdict plus the id check. */
  lemma UpdateIsCreationPlusId(d: HorseDetailDto, today: int, owners: map<int, OwnerDto>)
    ensures
      var c := HorseCreateDto(d.name, d.description, d.dateOfBirth, d.sex, d.owner, d.mother, d.father);
      UpdateVerdict(d, today, owners).Pass? <==> CreationVerdict(c, today, owners).Pass? && d.id.Some?
  {
  }
}
