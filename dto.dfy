/**
 * The records that cross the service boundary. Every Java reference component is
 * nullable and becomes an Option; dates are day numbers.
 */
module Dto {
  import opened Wrappers

  datatype Sex = Male | Female

  datatype OwnerDto = OwnerDto(id: int, firstName: string, lastName: string, email: Option<string>)

  datatype OwnerCreateDto = OwnerCreateDto(firstName: Option<string>, lastName: Option<string>, email: Option<string>)

  /** A one-level summary of a mother or father. */
  datatype HorseParentDto = HorseParentDto(
    id: Option<int>,
    name: Option<string>,
    description: Option<string>,
    dateOfBirth: Option<int>,
    sex: Option<Sex>)

  /** The data of a horse to be created; the store assigns the id. */
  datatype HorseCreateDto = HorseCreateDto(
    name: Option<string>,
    description: Option<string>,
    dateOfBirth: Option<int>,
    sex: Option<Sex>,
    owner: Option<OwnerDto>,
    mother: Option<HorseParentDto>,
    father: Option<HorseParentDto>)
  {
    function OwnerId(): (r: Option<int>)
      ensures r.None? <==> owner.None?
      ensures owner.Some? ==> r == Some(owner.value.id)
    {
      if owner.None? then None else Some(owner.value.id)
    }

    function MotherId(): (r: Option<int>)
      ensures mother.None? ==> r.None?
      ensures mother.Some? ==> r == mother.value.id
    {
      if mother.None? then None else mother.value.id
    }

    function FatherId(): (r: Option<int>)
      ensures father.None? ==> r.None?
      ensures father.Some? ==> r == father.value.id
    {
      if father.None? then None else father.value.id
    }
  }

  /** A horse with its owner and one-level parent summaries resolved. */
  datatype HorseDetailDto = HorseDetailDto(
    id: Option<int>,
    name: Option<string>,
    description: Option<string>,
    dateOfBirth: Option<int>,
    sex: Option<Sex>,
    owner: Option<OwnerDto>,
    mother: Option<HorseParentDto>,
    father: Option<HorseParentDto>)
  {
    /** The same horse under another id. */
    function WithId(newId: int): (r: HorseDetailDto)
      ensures r.id == Some(newId)
      ensures r.name == name && r.description == description && r.dateOfBirth == dateOfBirth
      ensures r.sex == sex && r.owner == owner && r.mother == mother && r.father == father
    {
      HorseDetailDto(Some(newId), name, description, dateOfBirth, sex, owner, mother, father)
    }

    function OwnerId(): (r: Option<int>)
      ensures r.None? <==> owner.None?
      ensures owner.Some? ==> r == Some(owner.value.id)
    {
      if owner.None? then None else Some(owner.value.id)
    }

    function MotherId(): (r: Option<int>)
      ensures mother.None? ==> r.None?
      ensures mother.Some? ==> r == mother.value.id
    {
      if mother.None? then None else mother.value.id
    }

    function FatherId(): (r: Option<int>)
      ensures father.None? ==> r.None?
      ensures father.Some? ==> r == father.value.id
    {
      if father.None? then None else father.value.id
    }
  }

  /** A horse in a search result: its owner resolved, no parents. */
  datatype HorseListDto = HorseListDto(
    id: Option<int>,
    name: Option<string>,
    description: Option<string>,
    dateOfBirth: Option<int>,
    sex: Option<Sex>,
    owner: Option<OwnerDto>)

  /** The search filter; a null component does not constrain the result. */
  datatype HorseSearchDto = HorseSearchDto(
    name: Option<string>,
    description: Option<string>,
    bornBefore: Option<int>,
    sex: Option<Sex>,
    ownerName: Option<string>,
    limit: Option<nat>)

  /** A node of a family tree; its children are the mother's and the father's trees. */
  datatype HorseFamilyTreeDto = HorseFamilyTreeDto(
    id: Option<int>,
    name: Option<string>,
    dateOfBirth: Option<int>,
    mother: Option<HorseFamilyTreeDto>,
    father: Option<HorseFamilyTreeDto>)

  /** withId keeps the references the accessors derive from the components. */
  lemma WithIdKeepsReferences(d: HorseDetailDto, newId: int)
    ensures d.WithId(newId).OwnerId() == d.OwnerId()
    ensures d.WithId(newId).MotherId() == d.MotherId()
    ensures d.WithId(newId).FatherId() == d.FatherId()
    ensures d.WithId(newId).WithId(newId) == d.WithId(newId)
    ensures d.id == Some(newId) ==> d.WithId(newId) == d
  {
  }
}
