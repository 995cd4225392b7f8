/**
 * Conversions between stored horses and the views the service hands out, and the
 * reconstruction of a family tree from the flat list of ancestors.
 */
module HorseMapper {
  import opened Wrappers
  import opened Text
  import opened Dto
  import opened Entity

  /** The fatal message of a lookup whose map lacks the referenced `role` ("owner", "mother", "father"). */
  function MissingMsg(role: string, horseId: Option<int>): string
  {
    "Given " + role + " map does not contain " + role + " of this Horse (" + LongToString(horseId) + ")"
  }

  // ---------------------------------------------------------------------------
  // Lookups by reference

  /**
   * Resolves a nullable reference through an id-keyed map: a null reference gives null,
   * a reference the map lacks is fatal, otherwise the map's entry.
   */
  function Resolve<V>(ref: Option<int>, m: map<int, V>, missing: string): (r: Result<Option<V>>)
    ensures r.Err? <==> ref.Some? && ref.value !in m
    ensures r.Err? ==> r.error == FatalError(missing)
    ensures r.Ok? ==> (r.value.None? <==> ref.None?)
    ensures r.Ok? && ref.Some? ==> r.value == Some(m[ref.value])
  {
    if ref.None? then Ok(None)
    else if ref.value !in m then Err(FatalError(missing))
    else Ok(Some(m[ref.value]))
  }

  /** getOwner: the owner the horse references, looked up in `owners`. */
  function GetOwner(horse: Horse, owners: map<int, OwnerDto>): (r: Result<Option<OwnerDto>>)
    ensures r.Err? <==> horse.ownerId.Some? && horse.ownerId.value !in owners
    ensures r.Err? ==> r.error == FatalError(MissingMsg("owner", horse.id))
    ensures r.Ok? ==> (r.value.None? <==> horse.ownerId.None?)
    ensures r.Ok? && horse.ownerId.Some? ==> r.value == Some(owners[horse.ownerId.value])
  {
    Resolve(horse.ownerId, owners, MissingMsg("owner", horse.id))
  }

  /** getMother: the mother the horse references, looked up in `mothers`. */
  function GetMother(horse: Horse, mothers: map<int, HorseParentDto>): (r: Result<Option<HorseParentDto>>)
    ensures r.Err? <==> horse.motherId.Some? && horse.motherId.value !in mothers
    ensures r.Err? ==> r.error == FatalError(MissingMsg("mother", horse.id))
    ensures r.Ok? ==> (r.value.None? <==> horse.motherId.None?)
    ensures r.Ok? && horse.motherId.Some? ==> r.value == Some(mothers[horse.motherId.value])
  {
    Resolve(horse.motherId, mothers, MissingMsg("mother", horse.id))
  }

  /** getFather: the father the horse references, looked up in `fathers`. */
  function GetFather(horse: Horse, fathers: map<int, HorseParentDto>): (r: Result<Option<HorseParentDto>>)
    ensures r.Err? <==> horse.fatherId.Some? && horse.fatherId.value !in fathers
    ensures r.Err? ==> r.error == FatalError(MissingMsg("father", horse.id))
    ensures r.Ok? ==> (r.value.None? <==> horse.fatherId.None?)
    ensures r.Ok? && horse.fatherId.Some? ==> r.value == Some(fathers[horse.fatherId.value])
  {
    Resolve(horse.fatherId, fathers, MissingMsg("father", horse.id))
  }

  // ---------------------------------------------------------------------------
  // Views

  /** entityToListDto: null for null; otherwise the horse's own fields and its resolved owner. */
  function EntityToListDto(horse: Option<Horse>, owners: map<int, OwnerDto>): (r: Result<Option<HorseListDto>>)
    ensures horse.None? ==> r == Ok(None)
    ensures horse.Some? ==> (r.Err? <==> GetOwner(horse.value, owners).Err?)
    ensures horse.Some? && r.Err? ==> r.error == GetOwner(horse.value, owners).error
    ensures horse.Some? && r.Ok? ==>
      && r.value.Some?
      && var h, v := horse.value, r.value.value;
      && v.id == h.id && v.name == h.name && v.description == h.description
      && v.dateOfBirth == Some(h.dateOfBirth) && v.sex == Some(h.sex)
      && v.owner == GetOwner(h, owners).value
  {
    if horse.None? then Ok(None)
    else
      var h := horse.value;
      var owner := GetOwner(h, owners);
      if owner.Err? then Err(owner.error)
      else Ok(Some(HorseListDto(h.id, h.name, h.description, Some(h.dateOfBirth), Some(h.sex), owner.value)))
  }

  /**
   * entityToDetailDto: null for null; otherwise the horse's own fields with owner, mother and
   * father resolved. The lookups run in that order, so the first missing one is reported.
   */
  function EntityToDetailDto(
    horse: Option<Horse>,
    owners: map<int, OwnerDto>,
    mothers: map<int, HorseParentDto>,
    fathers: map<int, HorseParentDto>): (r: Result<Option<HorseDetailDto>>)
    ensures horse.None? ==> r == Ok(None)
    ensures horse.Some? ==>
      (r.Err? <==> GetOwner(horse.value, owners).Err? || GetMother(horse.value, mothers).Err? || GetFather(horse.value, fathers).Err?)
    ensures horse.Some? && GetOwner(horse.value, owners).Err? ==> r == Err(GetOwner(horse.value, owners).error)
    ensures horse.Some? && GetOwner(horse.value, owners).Ok? && GetMother(horse.value, mothers).Err? ==>
      r == Err(GetMother(horse.value, mothers).error)
    ensures horse.Some? && GetOwner(horse.value, owners).Ok? && GetMother(horse.value, mothers).Ok? && GetFather(horse.value, fathers).Err? ==>
      r == Err(GetFather(horse.value, fathers).error)
    ensures horse.Some? && r.Ok? ==>
      && r.value.Some?
      && var h, v := horse.value, r.value.value;
      && v.id == h.id && v.name == h.name && v.description == h.description
      && v.dateOfBirth == Some(h.dateOfBirth) && v.sex == Some(h.sex)
      && v.owner == GetOwner(h, owners).value
      && v.mother == GetMother(h, mothers).value
      && v.father == GetFather(h, fathers).value
  {
    if horse.None? then Ok(None)
    else
      var h := horse.value;
      var owner := GetOwner(h, owners);
      if owner.Err? then Err(owner.error)
      else
        var mother := GetMother(h, mothers);
        if mother.Err? then Err(mother.error)
        else
          var father := GetFather(h, fathers);
          if father.Err? then Err(father.error)
          else Ok(Some(HorseDetailDto(h.id, h.name, h.description, Some(h.dateOfBirth), Some(h.sex),
                                      owner.value, mother.value, father.value)))
  }

  /** detailDtoToParentDto: the one-level summary keeps the identity, name, description, birth date and sex. */
  function DetailDtoToParentDto(d: HorseDetailDto): (r: HorseParentDto)
    ensures r.id == d.id && r.name == d.name && r.description == d.description
    ensures r.dateOfBirth == d.dateOfBirth && r.sex == d.sex
  {
    HorseParentDto(d.id, d.name, d.description, d.dateOfBirth, d.sex)
  }

  /** Every entry of an owner map sits under its own id. */
  predicate OwnersKeyed(owners: map<int, OwnerDto>)
  {
    forall k | k in owners :: owners[k].id == k
  }

  /** Every entry of a parent map sits under its own id. */
  predicate ParentsKeyed(parents: map<int, HorseParentDto>)
  {
    forall k | k in parents :: parents[k].id == Some(k)
  }

  /** With maps keyed by the ids of their entries, the detail view references exactly what the row references. */
  lemma DetailKeepsReferences(
    h: Horse,
    owners: map<int, OwnerDto>,
    mothers: map<int, HorseParentDto>,
    fathers: map<int, HorseParentDto>)
    requires OwnersKeyed(owners) && ParentsKeyed(mothers) && ParentsKeyed(fathers)
    requires EntityToDetailDto(Some(h), owners, mothers, fathers).Ok?
    ensures
      var v := EntityToDetailDto(Some(h), owners, mothers, fathers).value.value;
      v.OwnerId() == h.ownerId && v.MotherId() == h.motherId && v.FatherId() == h.fatherId
  {
    var v := EntityToDetailDto(Some(h), owners, mothers, fathers).value.value;
    assert v.owner == GetOwner(h, owners).value;
    assert v.mother == GetMother(h, mothers).value;
    assert v.father == GetFather(h, fathers).value;
    if h.ownerId.Some? {
      assert owners[h.ownerId.value].id == h.ownerId.value;
    }
    if h.motherId.Some? {
      var k := h.motherId.value;
      assert GetMother(h, mothers).Ok? && k in mothers;
      assert mothers[k].id == Some(k);
    }
    if h.fatherId.Some? {
      var k := h.fatherId.value;
      assert GetFather(h, fathers).Ok? && k in fathers;
      assert fathers[k].id == Some(k);
    }
  }

  /** The list view and the detail view of one row agree on everything the list view shows. */
  lemma ListAgreesWithDetail(
    h: Horse,
    owners: map<int, OwnerDto>,
    mothers: map<int, HorseParentDto>,
    fathers: map<int, HorseParentDto>)
    requires EntityToDetailDto(Some(h), owners, mothers, fathers).Ok?
    ensures EntityToListDto(Some(h), owners).Ok?
    ensures
      var l, d := EntityToListDto(Some(h), owners).value.value, EntityToDetailDto(Some(h), owners, mothers, fathers).value.value;
      l == HorseListDto(d.id, d.name, d.description, d.dateOfBirth, d.sex, d.owner)
  {
  }

  // ---------------------------------------------------------------------------
  // Family tree

  /** The index of the last horse in `hs` with the given id. */
  function LastMatch(hs: seq<Horse>, id: int): (r: Option<nat>)
    ensures r.None? <==> forall i | 0 <= i < |hs| :: hs[i].id != Some(id)
    ensures r.Some? ==> r.value < |hs| && hs[r.value].id == Some(id)
    ensures r.Some? ==> forall j | r.value < j < |hs| :: hs[j].id != Some(id)
  {
    if |hs| == 0 then None
    else if hs[|hs| - 1].id == Some(id) then Some(|hs| - 1)
    else LastMatch(hs[..|hs| - 1], id)
  }

  /**
   * The tree rooted at the horse with id `id`, built from `hs` alone. The source recurses
   * without a bound; `fuel` caps the depth, and a tree cut off by it ends in null.
   */
  function FamilyTree(id: int, hs: seq<Horse>, fuel: nat): (r: Option<HorseFamilyTreeDto>)
    ensures fuel > 0 ==> (r.None? <==> forall i | 0 <= i < |hs| :: hs[i].id != Some(id))
    ensures r.Some? ==> r.value.id == Some(id)
    decreases fuel
  {
    if fuel == 0 then None
    else match LastMatch(hs, id)
      case None => None
      case Some(k) => Some(NodeAt(hs, k, fuel))
  }

  /** The node for the row `hs[k]`, its parents' trees built with one unit of fuel less. */
  function NodeAt(hs: seq<Horse>, k: nat, fuel: nat): (r: HorseFamilyTreeDto)
    requires k < |hs| && fuel > 0
    decreases fuel, 0
  {
    var h := hs[k];
    HorseFamilyTreeDto(
      h.id, h.name, Some(h.dateOfBirth),
      if h.motherId.Some? then FamilyTree(h.motherId.value, hs, fuel - 1) else None,
      if h.fatherId.Some? then FamilyTree(h.fatherId.value, hs, fuel - 1) else None)
  }

  /**
   * entityToFamilyTreeDto: scans the whole list and keeps the node of the last row with the
   * requested id, building each match's parent trees recursively.
   */
  method EntityToFamilyTreeDto(id: int, horses: seq<Horse>, fuel: nat) returns (r: Option<HorseFamilyTreeDto>)
    ensures r == FamilyTree(id, horses, fuel)
    decreases fuel
  {
    if fuel == 0 {
      return None;
    }
    var horse: Option<HorseFamilyTreeDto> := None;
    for i := 0 to |horses|
      invariant LastMatch(horses[..i], id).None? ==> horse.None?
      invariant LastMatch(horses[..i], id).Some? ==> horse == Some(NodeAt(horses, LastMatch(horses[..i], id).value, fuel))
    {
      assert horses[..i + 1][..i] == horses[..i];
      if horses[i].id == Some(id) {
        var mother: Option<HorseFamilyTreeDto> := None;
        if horses[i].motherId.Some? {
          mother := EntityToFamilyTreeDto(horses[i].motherId.value, horses, fuel - 1);
        }
        var father: Option<HorseFamilyTreeDto> := None;
        if horses[i].fatherId.Some? {
          father := EntityToFamilyTreeDto(horses[i].fatherId.value, horses, fuel - 1);
        }
        horse := Some(HorseFamilyTreeDto(horses[i].id, horses[i].name, Some(horses[i].dateOfBirth), mother, father));
      }
    }
    assert horses[..|horses|] == horses;
    return horse;
  }

  /** The ids of every node of a tree. */
  function TreeIds(t: HorseFamilyTreeDto): (r: set<Option<int>>)
    ensures t.id in r
  {
    {t.id}
    + (if t.mother.Some? then TreeIds(t.mother.value) else {})
    + (if t.father.Some? then TreeIds(t.father.value) else {})
  }

  /** The ids of the rows of a list. */
  function ListIds(hs: seq<Horse>): set<Option<int>>
  {
    set i | 0 <= i < |hs| :: hs[i].id
  }

  /** Every node of a rebuilt tree comes from the list: no lookup goes outside it. */
  lemma {:induction false} TreeIdsFromList(id: int, hs: seq<Horse>, fuel: nat)
    requires FamilyTree(id, hs, fuel).Some?
    ensures TreeIds(FamilyTree(id, hs, fuel).value) <= ListIds(hs)
    decreases fuel
  {
    var k := LastMatch(hs, id).value;
    var h := hs[k];
    var t := FamilyTree(id, hs, fuel).value;
    assert t == NodeAt(hs, k, fuel);
    assert h.id in ListIds(hs);
    if h.motherId.Some? && t.mother.Some? {
      TreeIdsFromList(h.motherId.value, hs, fuel - 1);
    }
    if h.fatherId.Some? && t.father.Some? {
      TreeIdsFromList(h.fatherId.value, hs, fuel - 1);
    }
  }

  /** A found node carries the row's id, name and date of birth, and its parents' trees from the same list. */
  lemma FoundNodeShape(id: int, hs: seq<Horse>, fuel: nat)
    requires fuel > 0
    requires exists i | 0 <= i < |hs| :: hs[i].id == Some(id)
    ensures
      var k := LastMatch(hs, id).value;
      var h, t := hs[k], FamilyTree(id, hs, fuel);
      && t.Some? && t.value.id == Some(id) && t.value.name == h.name && t.value.dateOfBirth == Some(h.dateOfBirth)
      && (h.motherId.None? ==> t.value.mother.None?)
      && (h.motherId.Some? ==> t.value.mother == FamilyTree(h.motherId.value, hs, fuel - 1))
      && (h.fatherId.None? ==> t.value.father.None?)
      && (h.fatherId.Some? ==> t.value.father == FamilyTree(h.fatherId.value, hs, fuel - 1))
  {
  }

  /** A parent that is not in the list becomes a null subtree. */
  lemma MissingParentIsNull(id: int, hs: seq<Horse>, fuel: nat)
    requires fuel > 1
    requires FamilyTree(id, hs, fuel).Some?
    ensures
      var h := hs[LastMatch(hs, id).value];
      var t := FamilyTree(id, hs, fuel).value;
      && (h.motherId.Some? && h.motherId !in ListIds(hs) ==> t.mother.None?)
      && (h.fatherId.Some? && h.fatherId !in ListIds(hs) ==> t.father.None?)
  {
    var h := hs[LastMatch(hs, id).value];
    if h.motherId.Some? && h.motherId !in ListIds(hs) {
      assert forall i | 0 <= i < |hs| :: hs[i].id != h.motherId by {
        forall i | 0 <= i < |hs| ensures hs[i].id != h.motherId {
          assert hs[i].id in ListIds(hs);
        }
      }
    }
    if h.fatherId.Some? && h.fatherId !in ListIds(hs) {
      assert forall i | 0 <= i < |hs| :: hs[i].id != h.fatherId by {
        forall i | 0 <= i < |hs| ensures hs[i].id != h.fatherId {
          assert hs[i].id in ListIds(hs);
        }
      }
    }
  }

  // ---------------------------------------------------------------------------
  // Termination of the reconstruction

  /** Every parent that the list holds was born strictly before its child. */
  predicate ParentsBornBefore(hs: seq<Horse>)
  {
    forall i, j | 0 <= i < |hs| && 0 <= j < |hs| && hs[j].id.Some? && (hs[i].motherId == hs[j].id || hs[i].fatherId == hs[j].id) ::
      hs[j].dateOfBirth < hs[i].dateOfBirth
  }

  /** How many rows of `hs` were born before day `d`. */
  function Rank(hs: seq<Horse>, d: int): (r: nat)
    ensures r <= |hs|
  {
    if |hs| == 0 then 0 else (if hs[0].dateOfBirth < d then 1 else 0) + Rank(hs[1..], d)
  }

  /** A row born on or after `lo` but before `hi` makes `hi`'s rank exceed `lo`'s. */
  lemma {:induction false} RankGrows(hs: seq<Horse>, lo: int, hi: int, j: nat)
    requires j < |hs| && lo <= hs[j].dateOfBirth < hi
    ensures Rank(hs, lo) < Rank(hs, hi)
  {
    if j == 0 {
      RankMonotone(hs[1..], lo, hi);
    } else {
      RankGrows(hs[1..], lo, hi, j - 1);
    }
  }

  lemma {:induction false} RankMonotone(hs: seq<Horse>, lo: int, hi: int)
    requires lo <= hi
    ensures Rank(hs, lo) <= Rank(hs, hi)
  {
    if |hs| > 0 {
      RankMonotone(hs[1..], lo, hi);
    }
  }

  /** The fuel a tree needs: one more than the rank of its root's birth date. */
  function FuelNeeded(id: int, hs: seq<Horse>): (r: nat)
    ensures r <= |hs| + 1
  {
    match LastMatch(hs, id)
    case None => 1
    case Some(k) => Rank(hs, hs[k].dateOfBirth) + 1
  }

  /**
   * When parents are born before their children, the reconstruction ends: any two fuels of at
   * least `FuelNeeded` give the same tree, so the unbounded recursion of the source would
   * return this same tree.
   */
  lemma {:induction false} FuelSuffices(id: int, hs: seq<Horse>, f1: nat, f2: nat)
    requires ParentsBornBefore(hs)
    requires f1 >= FuelNeeded(id, hs) && f2 >= FuelNeeded(id, hs)
    ensures FamilyTree(id, hs, f1) == FamilyTree(id, hs, f2)
    decreases f1
  {
    match LastMatch(hs, id)
    case None =>
    case Some(k) =>
      var h := hs[k];
      if h.motherId.Some? {
        ParentTreeAgrees(hs, k, h.motherId.value, f1, f2);
      }
      if h.fatherId.Some? {
        ParentTreeAgrees(hs, k, h.fatherId.value, f1, f2);
      }
      assert NodeAt(hs, k, f1) == NodeAt(hs, k, f2);
  }

  /** The tree of a parent of `hs[k]` is the same under both fuels, one unit less each. */
  lemma {:induction false} ParentTreeAgrees(hs: seq<Horse>, k: nat, p: int, f1: nat, f2: nat)
    requires ParentsBornBefore(hs)
    requires k < |hs| && (hs[k].motherId == Some(p) || hs[k].fatherId == Some(p))
    requires f1 > Rank(hs, hs[k].dateOfBirth) && f2 > Rank(hs, hs[k].dateOfBirth)
    ensures FamilyTree(p, hs, f1 - 1) == FamilyTree(p, hs, f2 - 1)
    decreases f1, 0
  {
    match LastMatch(hs, p)
    case None =>
    case Some(j) =>
      assert hs[j].dateOfBirth < hs[k].dateOfBirth;
      RankGrows(hs, hs[j].dateOfBirth, hs[k].dateOfBirth, j);
      FuelSuffices(p, hs, f1 - 1, f2 - 1);
  }

  /** The full-list fuel is always enough. */
  lemma ListLengthFuelSuffices(id: int, hs: seq<Horse>, f: nat)
    requires ParentsBornBefore(hs)
    requires f >= |hs| + 1
    ensures FamilyTree(id, hs, |hs| + 1) == FamilyTree(id, hs, f)
  {
    FuelSuffices(id, hs, |hs| + 1, f);
  }
}
