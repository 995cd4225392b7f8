/**
 * The horse service: it validates, then writes through the table, and resolves the owner
 * and the parents of every horse it hands out. The owner service is the owner table,
 * read as a map.
 */
module Service {
  import opened Wrappers
  import opened Text
  import opened Dto
  import opened Entity
  import opened HorseValidator
  import opened HorseMapper
  import opened Persistence

  function OwnerMissingMsg(id: int): string
  {
    "Owner " + IntToString(id) + " referenced by horse not found"
  }

  function ParentMissingMsg(id: int): string
  {
    "Parent " + IntToString(id) + " referenced by horse not found"
  }

  /** The generation count handed to the table: at most 100, and 0 for anything not positive. */
  function Clamp(generations: int): (r: int)
    ensures 0 <= r <= 100
    ensures generations <= 0 ==> r == 0
    ensures generations > 100 ==> r == 100
    ensures 0 <= generations <= 100 ==> r == generations
  {
    if generations <= 0 then 0 else if generations > 100 then 100 else generations
  }

  /** Clamping twice is clamping once, and a larger request never gets fewer generations. */
  lemma ClampIdempotentAndMonotone(a: int, b: int)
    ensures Clamp(Clamp(a)) == Clamp(a)
    ensures a <= b ==> Clamp(a) <= Clamp(b)
  {
  }

  /** getAllById of the owner service: the owners among `ids`; ids it does not know are absent. */
  function GetAllById(owners: map<int, OwnerDto>, ids: set<int>): (r: map<int, OwnerDto>)
    ensures r.Keys == ids * owners.Keys
    ensures forall k | k in r :: r[k] == owners[k]
  {
    map k | k in ids && k in owners :: owners[k]
  }

  // ---------------------------------------------------------------------------
  // Resolving one horse: getById and the single-id maps call each other

  /**
   * ownerMapForSingleId: no map for a null id (modelled as the empty map, which the mapper
   * never consults then); a one-entry map for a known owner; fatal for an unknown one.
   */
  function OwnerMapFor(owners: map<int, OwnerDto>, ownerId: Option<int>): (r: Result<map<int, OwnerDto>>)
    ensures ownerId.None? ==> r == Ok(map[])
    ensures ownerId.Some? ==> (r.Ok? <==> ownerId.value in owners)
    ensures ownerId.Some? && r.Ok? ==> r.value == map[ownerId.value := owners[ownerId.value]]
    ensures r.Err? ==> r.error == FatalError(OwnerMissingMsg(ownerId.value))
  {
    if ownerId.None? then Ok(map[])
    else if ownerId.value !in owners then Err(FatalError(OwnerMissingMsg(ownerId.value)))
    else Ok(map[ownerId.value := owners[ownerId.value]])
  }

  /**
   * getById, with the depth of the nested parent lookups bounded by `fuel`: the source
   * recurses up the whole ancestry, and on a cycle it never returns (StackOverflow).
   */
  function DetailById(rows: map<int, Horse>, owners: map<int, OwnerDto>, id: int, fuel: nat): (r: Result<HorseDetailDto>)
    ensures r.Err? && r.error.NotFoundError? <==> id !in rows
    ensures r.Err? ==> r.error.NotFoundError? || r.error.FatalError? || r.error.StackOverflow?
    ensures r.Ok? ==> id in rows && r.value.id == rows[id].id && r.value.name == rows[id].name && r.value.description == rows[id].description
    ensures r.Ok? ==> r.value.dateOfBirth == Some(rows[id].dateOfBirth) && r.value.sex == Some(rows[id].sex)
    decreases fuel, 2
  {
    if id !in rows then Err(NotFoundError(NoHorseMsg(id)))
    else DetailOf(rows, owners, rows[id], fuel)
  }

  /** The detail view of the row `h`, its owner and parents resolved; a parent that is not stored is fatal. */
  function DetailOf(rows: map<int, Horse>, owners: map<int, OwnerDto>, h: Horse, fuel: nat): (r: Result<HorseDetailDto>)
    ensures r.Err? ==> r.error.FatalError? || r.error.StackOverflow?
    ensures r.Ok? ==> r.value.id == h.id && r.value.name == h.name && r.value.description == h.description
    ensures r.Ok? ==> r.value.dateOfBirth == Some(h.dateOfBirth) && r.value.sex == Some(h.sex)
    decreases fuel, 1
  {
    var ownerMap := OwnerMapFor(owners, h.ownerId);
    if ownerMap.Err? then Err(ownerMap.error)
    else
      var motherMap := ParentMap(rows, owners, h.motherId, fuel);
      if motherMap.Err? then Err(motherMap.error)
      else
        var fatherMap := ParentMap(rows, owners, h.fatherId, fuel);
        if fatherMap.Err? then Err(fatherMap.error)
        else
          var d := EntityToDetailDto(Some(h), ownerMap.value, motherMap.value, fatherMap.value);
          if d.Ok? && d.value.Some? then Ok(d.value.value) else assert false; Err(StackOverflow)
  }

  /**
   * parentMapForSingleId: no map for a null id; otherwise the one-entry map of the parent's
   * summary, where a parent that is not found is fatal rather than NotFound.
   */
  function ParentMap(rows: map<int, Horse>, owners: map<int, OwnerDto>, parentId: Option<int>, fuel: nat): (r: Result<map<int, HorseParentDto>>)
    ensures parentId.None? ==> r == Ok(map[])
    ensures parentId.Some? && parentId.value !in rows && fuel > 0 ==> r == Err(FatalError(ParentMissingMsg(parentId.value)))
    ensures r.Err? ==> r.error.FatalError? || r.error.StackOverflow?
    ensures r.Ok? && parentId.Some? ==> r.value.Keys == {parentId.value} && parentId.value in rows
    ensures r.Ok? && parentId.Some? ==>
      var p, h := r.value[parentId.value], rows[parentId.value];
      && p.id == h.id && p.name == h.name && p.description == h.description
      && p.dateOfBirth == Some(h.dateOfBirth) && p.sex == Some(h.sex)
    decreases fuel, 0
  {
    if parentId.None? then Ok(map[])
    else if fuel == 0 then Err(StackOverflow)
    else
      var parent := DetailById(rows, owners, parentId.value, fuel - 1);
      if parent.Err? then
        if parent.error.NotFoundError? then Err(FatalError(ParentMissingMsg(parentId.value))) else Err(parent.error)
      else Ok(map[parentId.value := DetailDtoToParentDto(parent.value)])
  }

  /** Whether a row resolves does not depend on the id it carries. */
  lemma DetailOfOkIgnoresId(rows: map<int, Horse>, owners: map<int, OwnerDto>, h: Horse, id: Option<int>, fuel: nat)
    ensures DetailOf(rows, owners, h, fuel).Ok? == DetailOf(rows, owners, h.(id := id), fuel).Ok?
  {
  }

  /** A resolved detail view references exactly the owner, mother and father its row references. */
  lemma DetailOfKeepsReferences(rows: map<int, Horse>, owners: map<int, OwnerDto>, h: Horse, fuel: nat)
    requires RowsConsistent(rows) && OwnersKeyed(owners)
    requires DetailOf(rows, owners, h, fuel).Ok?
    ensures
      var v := DetailOf(rows, owners, h, fuel).value;
      v.OwnerId() == h.ownerId && v.MotherId() == h.motherId && v.FatherId() == h.fatherId
  {
    var ownerMap := OwnerMapFor(owners, h.ownerId).value;
    var motherMap := ParentMap(rows, owners, h.motherId, fuel).value;
    var fatherMap := ParentMap(rows, owners, h.fatherId, fuel).value;
    assert OwnersKeyed(ownerMap);
    if h.motherId.Some? {
      assert motherMap[h.motherId.value].id == Some(h.motherId.value);
    }
    assert ParentsKeyed(motherMap);
    if h.fatherId.Some? {
      assert fatherMap[h.fatherId.value].id == Some(h.fatherId.value);
    }
    assert ParentsKeyed(fatherMap);
    DetailKeepsReferences(h, ownerMap, motherMap, fatherMap);
  }

  // ---------------------------------------------------------------------------
  // When the resolution ends

  /** A stored parent's ancestors at distance `m` are its child's ancestors at distance m + 1. */
  lemma {:induction false} LevelShift(rows: map<int, Horse>, child: int, parent: int, m: nat)
    requires IsParentStep(rows, child, parent)
    ensures Level(rows, parent, m) <= Level(rows, child, m + 1)
  {
    if m > 0 {
      LevelShift(rows, child, parent, m - 1);
      ParentKeysMonotone(rows, Level(rows, parent, m - 1), Level(rows, child, m));
    } else {
      assert Level(rows, child, 0) == {child};
    }
  }

  lemma ParentKeysMonotone(rows: map<int, Horse>, a: set<int>, b: set<int>)
    requires a <= b
    ensures ParentKeys(rows, a) <= ParentKeys(rows, b)
  {
    forall p | p in ParentKeys(rows, a)
      ensures p in ParentKeys(rows, b)
    {
      var c :| c in a && IsParentStep(rows, c, p);
      assert c in b;
    }
  }

  /**
   * Once the ancestry of `id` has no generation at distance `fuel`, more fuel changes
   * nothing and the resolution does not overflow: it is what the unbounded recursion of
   * the source returns.
   */
  lemma {:induction false} DetailFuelSuffices(rows: map<int, Horse>, owners: map<int, OwnerDto>, id: int, f1: nat, f2: nat)
    requires Level(rows, id, f1) == {} && f1 <= f2
    ensures DetailById(rows, owners, id, f1) == DetailById(rows, owners, id, f2)
    ensures DetailById(rows, owners, id, f1) != Err(StackOverflow)
    decreases f1
  {
    if id in rows {
      assert id in Level(rows, id, 0);
      var h := rows[id];
      ParentMapFuelSuffices(rows, owners, id, h.motherId, f1, f2);
      ParentMapFuelSuffices(rows, owners, id, h.fatherId, f1, f2);
    }
  }

  lemma {:induction false} ParentMapFuelSuffices(rows: map<int, Horse>, owners: map<int, OwnerDto>, id: int, parentId: Option<int>, f1: nat, f2: nat)
    requires id in rows && (parentId == rows[id].motherId || parentId == rows[id].fatherId)
    requires Level(rows, id, f1) == {} && f1 <= f2
    ensures ParentMap(rows, owners, parentId, f1) == ParentMap(rows, owners, parentId, f2)
    ensures ParentMap(rows, owners, parentId, f1) != Err(StackOverflow)
    decreases f1, 0
  {
    assert id in Level(rows, id, 0);
    if parentId.Some? {
      var p := parentId.value;
      if p in rows {
        assert IsParentStep(rows, id, p);
        LevelShift(rows, id, p, f1 - 1);
        DetailFuelSuffices(rows, owners, p, f1 - 1, f2 - 1);
      }
    }
  }

  /** Every stored parent was born strictly before its stored child. */
  ghost predicate RowsBornBefore(rows: map<int, Horse>)
  {
    forall c, p | IsParentStep(rows, c, p) :: rows[p].dateOfBirth < rows[c].dateOfBirth
  }

  /** How many stored horses were born before day `d`. */
  function RankIn(rows: map<int, Horse>, d: int): nat
  {
    |set k | k in rows && rows[k].dateOfBirth < d|
  }

  lemma RankStrict(rows: map<int, Horse>, p: int, c: int)
    requires p in rows && c in rows && rows[p].dateOfBirth < rows[c].dateOfBirth
    ensures RankIn(rows, rows[p].dateOfBirth) < RankIn(rows, rows[c].dateOfBirth)
  {
    var a := set k | k in rows && rows[k].dateOfBirth < rows[p].dateOfBirth;
    var b := set k | k in rows && rows[k].dateOfBirth < rows[c].dateOfBirth;
    assert a <= b && p in b && p !in a;
    assert b == a + (b - a);
    assert p in b - a;
  }

  lemma RankBelowSize(rows: map<int, Horse>, id: int)
    requires id in rows
    ensures RankIn(rows, rows[id].dateOfBirth) < |rows|
  {
    var a := set k | k in rows && rows[k].dateOfBirth < rows[id].dateOfBirth;
    assert a <= rows.Keys - {id};
    assert |rows.Keys - {id}| == |rows| - 1;
    SubsetCard(a, rows.Keys - {id});
  }

  /** Each generation further up the ancestry lies strictly earlier in the birth order. */
  lemma {:induction false} LevelRank(rows: map<int, Horse>, id: int, n: nat, k: int)
    requires RowsBornBefore(rows)
    requires k in Level(rows, id, n)
    ensures id in rows && RankIn(rows, rows[k].dateOfBirth) + n <= RankIn(rows, rows[id].dateOfBirth)
  {
    if n > 0 {
      var c :| c in Level(rows, id, n - 1) && IsParentStep(rows, c, k);
      LevelRank(rows, id, n - 1, c);
      RankStrict(rows, k, c);
    }
  }

  /** When parents are born before their children, the ancestry dies out within |rows| generations. */
  lemma AncestryEnds(rows: map<int, Horse>, id: int)
    requires RowsBornBefore(rows)
    ensures Level(rows, id, |rows|) == {}
  {
    if k :| k in Level(rows, id, |rows|) {
      LevelRank(rows, id, |rows|, k);
      RankBelowSize(rows, id);
    }
  }

  /** Hence the fuel the service uses is enough: getById returns what the unbounded recursion returns. */
  lemma ServiceFuelSuffices(rows: map<int, Horse>, owners: map<int, OwnerDto>, id: int, fuel: nat)
    requires RowsBornBefore(rows) && fuel >= |rows| + 1
    ensures DetailById(rows, owners, id, |rows| + 1) == DetailById(rows, owners, id, fuel)
    ensures DetailById(rows, owners, id, |rows| + 1) != Err(StackOverflow)
  {
    AncestryEnds(rows, id);
    var n := |rows|;
    assert Level(rows, id, n + 1) == ParentKeys(rows, Level(rows, id, n));
    assert ParentKeys(rows, {}) == {};
    DetailFuelSuffices(rows, owners, id, |rows| + 1, fuel);
  }

  /** Two horses that name each other as mother: resolving either never ends, whatever the fuel. */
  lemma {:induction false} MutualParentsOverflow(rows: map<int, Horse>, owners: map<int, OwnerDto>, a: int, b: int, fuel: nat)
    requires a in rows && b in rows && rows[a].ownerId.None? && rows[b].ownerId.None?
    requires rows[a].motherId == Some(b) && rows[b].motherId == Some(a)
    ensures DetailById(rows, owners, a, fuel) == Err(StackOverflow)
    decreases fuel
  {
    if fuel > 0 {
      MutualParentsOverflow(rows, owners, b, a, fuel - 1);
      assert ParentMap(rows, owners, Some(b), fuel) == Err(StackOverflow);
    }
    assert DetailOf(rows, owners, rows[a], fuel) == Err(StackOverflow);
  }

  /**
   * The parent checks compare the parent summaries the client sends, not the stored parents:
   * an update that names a horse's own child as its mother passes every check when the
   * summary claims an early birth date, and afterwards the two horses name each other.
   */
  lemma CycleAcceptedOnUpdate(owners: map<int, OwnerDto>)
    ensures
      var mare := Horse(Some(1), Some("Mare"), None, 10, Female, None, None, None);
      var foal := Horse(Some(2), Some("Foal"), None, 20, Female, None, Some(1), None);
      var claim := HorseParentDto(Some(2), Some("Foal"), None, Some(5), Some(Female));
      var d := HorseDetailDto(Some(1), Some("Mare"), None, Some(10), Some(Female), None, Some(claim), None);
      var before := map[1 := mare, 2 := foal];
      var after := before[1 := Horse(Some(1), Some("Mare"), None, 10, Female, None, Some(2), None)];
      && UpdateVerdict(d, 30, owners) == Pass
      && ChildKeys(before, d.id) == {2}
      && !BirthdayConflict([HorseDetailDto(Some(2), Some("Foal"), None, Some(20), Some(Female), None, None, None)], d, 30)
      && after[1].motherId == d.MotherId()
      && DetailById(after, owners, 1, |after| + 1) == Err(StackOverflow)
  {
    var mare := Horse(Some(1), Some("Mare"), None, 10, Female, None, None, None);
    var foal := Horse(Some(2), Some("Foal"), None, 20, Female, None, Some(1), None);
    var claim := HorseParentDto(Some(2), Some("Foal"), None, Some(5), Some(Female));
    var d := HorseDetailDto(Some(1), Some("Mare"), None, Some(10), Some(Female), None, Some(claim), None);
    var before := map[1 := mare, 2 := foal];
    var after := before[1 := Horse(Some(1), Some("Mare"), None, 10, Female, None, Some(2), None)];
    assert !IsBlank("Mare") by { assert !IsWhitespace("Mare"[0]); }
    assert FieldsValid(d.dateOfBirth, d.name, d.sex, d.description, 30);
    assert ChildKeys(before, d.id) == {2} by {
      assert IsChildOf(foal, d.id) && !IsChildOf(mare, d.id);
    }
    MutualParentsOverflow(after, owners, 1, 2, |after| + 1);
  }

  /** The new birth date lies no later than today and no later than any stored child's. */
  ghost predicate ChildDatesAllow(rows: map<int, Horse>, d: HorseDetailDto, today: int)
    requires d.dateOfBirth.Some?
  {
    && d.dateOfBirth.value <= today
    && forall k | k in ChildKeys(rows, d.id) :: d.dateOfBirth.value <= rows[k].dateOfBirth
  }

  /**
   * What the retroactive check guarantees: the parent is stored, keeps its stored sex, and
   * was born no later than today and no later than any of its stored children.
   */
  ghost predicate ChildrenAllowUpdate(rows: map<int, Horse>, d: HorseDetailDto, today: int)
    requires d.dateOfBirth.Some?
  {
    && d.id.Some? && d.id.value in rows
    && d.sex == Some(rows[d.id.value].sex)
    && ChildDatesAllow(rows, d, today)
  }

  /** The conflict messages of the retroactive check, read off the stored rows. */
  ghost function RelationMessages(rows: map<int, Horse>, d: HorseDetailDto, today: int): seq<string>
    requires d.dateOfBirth.Some? && d.id.Some? && d.id.value in rows
  {
    (if ChildDatesAllow(rows, d, today) then [] else [ChildBirthdayMsg])
    + (if d.sex != Some(rows[d.id.value].sex) then [SexChangeMsg] else [])
  }

  /** Every stored child of the horse resolves to its detail view. */
  ghost predicate ChildrenResolve(rows: map<int, Horse>, owners: map<int, OwnerDto>, id: Option<int>)
  {
    forall k | k in ChildKeys(rows, id) :: DetailOf(rows, owners, rows[k], |rows| + 1).Ok?
  }

  /**
   * Everything update checks before it writes: the data passes validation, the horse is
   * stored, and if it has children they resolve and allow the new data.
   */
  ghost predicate UpdateAllowed(rows: map<int, Horse>, owners: map<int, OwnerDto>, d: HorseDetailDto, today: int)
  {
    && UpdateVerdict(d, today, owners).Pass? && d.id.Some? && d.dateOfBirth.Some? && d.id.value in rows
    && (ChildKeys(rows, d.id) == {} || (ChildrenResolve(rows, owners, d.id) && ChildrenAllowUpdate(rows, d, today)))
  }

  /** Valid data for a horse that is not stored, whose children (if any) resolve: update reports it not found. */
  ghost predicate UpdateOfMissing(rows: map<int, Horse>, owners: map<int, OwnerDto>, d: HorseDetailDto, today: int)
  {
    UpdateVerdict(d, today, owners).Pass? && d.id.Some? && d.id.value !in rows && ChildrenResolve(rows, owners, d.id)
  }

  /** Views carrying the birth dates of exactly the stored children conflict iff the stored children forbid the date. */
  lemma ChildViewsConflict(rows: map<int, Horse>, d: HorseDetailDto, today: int, childRows: seq<Horse>, children: seq<HorseDetailDto>)
    requires d.dateOfBirth.Some? && |children| == |childRows|
    requires forall j | 0 <= j < |childRows| :: children[j].dateOfBirth == Some(childRows[j].dateOfBirth)
    requires forall j | 0 <= j < |childRows| :: Stored(rows, childRows[j]) && IsChildOf(childRows[j], d.id)
    requires forall k | k in ChildKeys(rows, d.id) :: rows[k] in childRows
    ensures BirthdayConflict(children, d, today) <==> !ChildDatesAllow(rows, d, today)
  {
    if BirthdayConflict(children, d, today) && today >= d.dateOfBirth.value {
      var j :| 0 <= j < |children| && children[j].dateOfBirth.Some? && children[j].dateOfBirth.value < d.dateOfBirth.value;
      var k := childRows[j].id.value;
      assert rows[k] == childRows[j] && k in ChildKeys(rows, d.id);
      assert rows[k].dateOfBirth < d.dateOfBirth.value;
    }
    if !ChildDatesAllow(rows, d, today) && today >= d.dateOfBirth.value {
      var k :| k in ChildKeys(rows, d.id) && rows[k].dateOfBirth < d.dateOfBirth.value;
      var j :| 0 <= j < |childRows| && childRows[j] == rows[k];
      assert children[j].dateOfBirth.value < d.dateOfBirth.value;
    }
  }

  // ---------------------------------------------------------------------------
  // What the family tree holds

  /** The stored parents a list of stored rows holds were born before their children. */
  lemma ListBornBefore(rows: map<int, Horse>, list: seq<Horse>)
    requires RowsBornBefore(rows)
    requires forall i | 0 <= i < |list| :: Stored(rows, list[i])
    ensures ParentsBornBefore(list)
  {
    forall i, j | 0 <= i < |list| && 0 <= j < |list| && list[j].id.Some? && (list[i].motherId == list[j].id || list[i].fatherId == list[j].id)
      ensures list[j].dateOfBirth < list[i].dateOfBirth
    {
      assert IsParentStep(rows, list[i].id.value, list[j].id.value);
    }
  }

  /**
   * Rebuilding a tree from a list that holds every row of a stored ancestor path, with fuel
   * for the whole path, reaches the path's last horse.
   */
  lemma {:induction false} PathInTree(rows: map<int, Horse>, list: seq<Horse>, path: seq<int>, fuel: nat)
    requires RowsConsistent(rows)
    requires forall i | 0 <= i < |list| :: Stored(rows, list[i])
    requires IsAncestorPath(rows, path)
    requires forall i | 0 <= i < |path| :: path[i] in rows && rows[path[i]] in list
    requires fuel >= |path|
    ensures FamilyTree(path[0], list, fuel).Some?
    ensures Some(path[|path| - 1]) in TreeIds(FamilyTree(path[0], list, fuel).value)
    decreases |path|
  {
    assert path[0] in rows && rows[path[0]] in list;
    var j :| 0 <= j < |list| && list[j] == rows[path[0]];
    var root := path[0];
    assert root in rows;
    assert rows[root].id == Some(root);
    assert list[j].id == Some(path[0]);
    var k := LastMatch(list, path[0]).value;
    assert list[k] == rows[path[0]];
    var t := FamilyTree(path[0], list, fuel).value;
    assert t == NodeAt(list, k, fuel);
    if |path| > 1 {
      var rest := path[1..];
      assert IsAncestorPath(rows, rest) by {
        forall i | 0 <= i < |rest| - 1
          ensures IsParentStep(rows, rest[i], rest[i + 1])
        {
          assert rest[i] == path[i + 1] && rest[i + 1] == path[i + 2];
        }
      }
      PathInTree(rows, list, rest, fuel - 1);
      assert IsParentStep(rows, path[0], path[1]);
      if list[k].motherId == Some(path[1]) {
        assert t.mother == FamilyTree(path[1], list, fuel - 1);
      } else {
        assert t.father == FamilyTree(path[1], list, fuel - 1);
      }
      assert path[|path| - 1] == rest[|rest| - 1];
    }
  }

  /** Every horse on an ancestor path of fewer than `g` steps from `id` is fetched for `g` generations. */
  lemma PathWithin(rows: map<int, Horse>, id: int, g: nat, path: seq<int>)
    requires IsAncestorPath(rows, path) && path[0] == id && |path| <= g
    ensures forall i | 0 <= i < |path| :: path[i] in Within(rows, id, g)
  {
    forall i | 0 <= i < |path|
      ensures path[i] in Within(rows, id, g)
    {
      var prefix := path[..i + 1];
      assert IsAncestorPath(rows, prefix) by {
        forall n | 0 <= n < |prefix| - 1
          ensures IsParentStep(rows, prefix[n], prefix[n + 1])
        {
          assert prefix[n] == path[n] && prefix[n + 1] == path[n + 1];
        }
      }
      PathInLevel(rows, prefix);
      WithinIsLevels(rows, id, g, path[i]);
    }
  }

  /** Every node of a tree rebuilt from the fetched rows is one of the fetched ancestors. */
  lemma TreeWithinFetched(rows: map<int, Horse>, id: int, g: nat, list: seq<Horse>)
    requires forall i | 0 <= i < |list| :: Stored(rows, list[i]) && list[i].id.value in Within(rows, id, g)
    requires FamilyTree(id, list, |list| + 1).Some?
    ensures forall x | x in TreeIds(FamilyTree(id, list, |list| + 1).value) :: x.Some? && x.value in Within(rows, id, g)
  {
    TreeIdsFromList(id, list, |list| + 1);
    forall x | x in TreeIds(FamilyTree(id, list, |list| + 1).value)
      ensures x.Some? && x.value in Within(rows, id, g)
    {
      assert x in ListIds(list);
      var i :| 0 <= i < |list| && list[i].id == x;
    }
  }

  /** One fetched ancestor appears in the rebuilt tree when parents are born first. */
  lemma AncestorInTree(rows: map<int, Horse>, id: int, g: nat, list: seq<Horse>, k: int)
    requires RowsConsistent(rows) && ParentsBornBefore(list)
    requires forall i | 0 <= i < |list| :: Stored(rows, list[i])
    requires forall j | j in Within(rows, id, g) :: rows[j] in list
    requires k in Within(rows, id, g)
    ensures FamilyTree(id, list, |list| + 1).Some?
    ensures Some(k) in TreeIds(FamilyTree(id, list, |list| + 1).value)
  {
    WithinIsLevels(rows, id, g, k);
    var m :| 0 <= m < g && k in Level(rows, id, m);
    var path := LevelHasPath(rows, id, m, k);
    PathWithin(rows, id, g, path);
    var f := |list| + 1 + |path|;
    assert forall i | 0 <= i < |path| :: path[i] in rows && rows[path[i]] in list;
    PathInTree(rows, list, path, f);
    ListLengthFuelSuffices(id, list, f);
    assert path[|path| - 1] == k;
  }

  /**
   * With parents born before their children, the tree rebuilt from the fetched ancestors
   * holds every one of them: all ancestors up to the requested generation.
   */
  lemma TreeHoldsWithin(rows: map<int, Horse>, id: int, g: nat, list: seq<Horse>)
    requires RowsConsistent(rows) && RowsBornBefore(rows)
    requires forall i | 0 <= i < |list| :: Stored(rows, list[i])
    requires forall k | k in Within(rows, id, g) :: rows[k] in list
    requires FamilyTree(id, list, |list| + 1).Some?
    ensures forall k | k in Within(rows, id, g) :: Some(k) in TreeIds(FamilyTree(id, list, |list| + 1).value)
  {
    ListBornBefore(rows, list);
    forall k | k in Within(rows, id, g)
      ensures Some(k) in TreeIds(FamilyTree(id, list, |list| + 1).value)
    {
      AncestorInTree(rows, id, g, list, k);
    }
  }

  /** Looking the owner up among the fetched owners is the same as looking it up in the owner table. */
  lemma OwnersFetchedSuffice(h: Horse, owners: map<int, OwnerDto>, ids: set<int>)
    requires h.ownerId.Some? ==> h.ownerId.value in ids
    ensures EntityToListDto(Some(h), GetAllById(owners, ids)) == EntityToListDto(Some(h), owners)
  {
    assert GetOwner(h, GetAllById(owners, ids)) == GetOwner(h, owners);
  }

  /** The stream map of searchForHorses: each row to its list view, in order; the first failure aborts. */
  method MapToListViews(horses: seq<Horse>, owners: map<int, OwnerDto>) returns (r: Result<seq<HorseListDto>>)
    ensures r.Err? <==> exists i | 0 <= i < |horses| :: horses[i].ownerId.Some? && horses[i].ownerId.value !in owners
    ensures r.Err? ==> r.error.FatalError?
    ensures r.Ok? ==> |r.value| == |horses|
    ensures r.Ok? ==> forall i | 0 <= i < |horses| :: EntityToListDto(Some(horses[i]), owners) == Ok(Some(r.value[i]))
  {
    var views: seq<HorseListDto> := [];
    for i := 0 to |horses|
      invariant |views| == i
      invariant forall j | 0 <= j < i :: horses[j].ownerId.Some? ==> horses[j].ownerId.value in owners
      invariant forall j | 0 <= j < i :: EntityToListDto(Some(horses[j]), owners) == Ok(Some(views[j]))
    {
      var view := EntityToListDto(Some(horses[i]), owners);
      if view.Err? {
        return Err(view.error);
      }
      views := views + [view.value.value];
    }
    return Ok(views);
  }

  // ---------------------------------------------------------------------------
  // The service

  class HorseServiceImpl {
    const dao: HorseJdbcDao
    /** The owner table, which the owner service reads. */
    const owners: map<int, OwnerDto>

    ghost predicate Valid()
      reads this, dao
    {
      dao.Valid() && OwnersKeyed(owners)
    }

    constructor(dao: HorseJdbcDao, owners: map<int, OwnerDto>)
      requires dao.Valid() && OwnersKeyed(owners)
      ensures Valid() && this.dao == dao && this.owners == owners
    {
      this.dao := dao;
      this.owners := owners;
    }

    /** ownerMapForSingleId */
    method OwnerMapForSingleId(ownerId: Option<int>) returns (r: Result<map<int, OwnerDto>>)
      ensures r == OwnerMapFor(owners, ownerId)
    {
      if ownerId.None? {
        return Ok(map[]);
      }
      if ownerId.value !in owners {
        return Err(FatalError(OwnerMissingMsg(ownerId.value)));
      }
      return Ok(map[ownerId.value := owners[ownerId.value]]);
    }

    /** parentMapForSingleId, with the depth left for nested lookups. */
    method ParentMapForSingleId(parentId: Option<int>, fuel: nat) returns (r: Result<map<int, HorseParentDto>>)
      requires Valid()
      ensures r == ParentMap(dao.rows, owners, parentId, fuel)
      decreases fuel, 0
    {
      if parentId.None? {
        return Ok(map[]);
      }
      if fuel == 0 {
        return Err(StackOverflow);
      }
      var parent := GetByIdWithin(parentId.value, fuel - 1);
      if parent.Err? {
        if parent.error.NotFoundError? {
          return Err(FatalError(ParentMissingMsg(parentId.value)));
        }
        return Err(parent.error);
      }
      return Ok(map[parentId.value := DetailDtoToParentDto(parent.value)]);
    }

    /** The detail view of a row: owner, mother and father resolved in that order, then mapped. */
    method DetailFor(h: Horse, fuel: nat) returns (r: Result<HorseDetailDto>)
      requires Valid()
      ensures r == DetailOf(dao.rows, owners, h, fuel)
      decreases fuel, 1
    {
      var ownerMap := OwnerMapForSingleId(h.ownerId);
      if ownerMap.Err? {
        return Err(ownerMap.error);
      }
      var motherMap := ParentMapForSingleId(h.motherId, fuel);
      if motherMap.Err? {
        return Err(motherMap.error);
      }
      var fatherMap := ParentMapForSingleId(h.fatherId, fuel);
      if fatherMap.Err? {
        return Err(fatherMap.error);
      }
      var d := EntityToDetailDto(Some(h), ownerMap.value, motherMap.value, fatherMap.value);
      if d.Err? || d.value.None? {
        assert false;
      }
      return Ok(d.value.value);
    }

    /** getById, with the depth left for nested lookups. */
    method GetByIdWithin(id: int, fuel: nat) returns (r: Result<HorseDetailDto>)
      requires Valid()
      ensures r == DetailById(dao.rows, owners, id, fuel)
      decreases fuel, 2
    {
      var horse := dao.GetById(id);
      if horse.Err? {
        return Err(horse.error);
      }
      r := DetailFor(horse.value, fuel);
    }

    /** getById: the stored horse with its owner and parents resolved; NotFound only for the horse itself. */
    method GetById(id: int) returns (r: Result<HorseDetailDto>)
      requires Valid()
      ensures r == DetailById(dao.rows, owners, id, |dao.rows| + 1)
      ensures r.Err? && r.error.NotFoundError? <==> id !in dao.rows
      ensures r.Ok? ==> r.value.id == Some(id)
    {
      r := GetByIdWithin(id, |dao.rows| + 1);
    }

    /**
     * getFamilyTree: clamps the generations to [0, 100], fetches the ancestors and rebuilds
     * the tree from them. `list` is what the table returned.
     */
    method GetFamilyTree(id: int, generations: int) returns (r: Result<Option<HorseFamilyTreeDto>>, ghost list: seq<Horse>)
      requires Valid()
      ensures r.Err? <==> id !in dao.rows
      ensures r.Err? ==> r.error == NotFoundError(TreeRootMissingMsg)
      ensures forall i | 0 <= i < |list| :: Stored(dao.rows, list[i]) && list[i].id.value in Within(dao.rows, id, Clamp(generations))
      ensures forall k | k in Within(dao.rows, id, Clamp(generations)) :: dao.rows[k] in list
      ensures r.Ok? ==> r.value == FamilyTree(id, list, |list| + 1)
      ensures r.Ok? && generations <= 0 ==> r.value.None?
      ensures r.Ok? && generations > 0 ==> r.value.Some? && r.value.value.id == Some(id)
      ensures r.Ok? && r.value.Some? ==>
        forall x | x in TreeIds(r.value.value) :: x.Some? && x.value in Within(dao.rows, id, Clamp(generations))
      ensures r.Ok? && r.value.Some? && RowsBornBefore(dao.rows) ==>
        forall k | k in Within(dao.rows, id, Clamp(generations)) :: Some(k) in TreeIds(r.value.value)
    {
      var g := generations;
      if g <= 0 {
        g := 0;
      }
      if g > 100 {
        g := 100;
      }
      assert g == Clamp(generations);
      var ancestors := dao.GetFamilyTree(id, g);
      if ancestors.Err? {
        NoRootNoAncestors(dao.rows, id, g);
        list := [];
        return Err(ancestors.error), list;
      }
      var horses := ancestors.value;
      list := horses;
      var tree := EntityToFamilyTreeDto(id, horses, |horses| + 1);
      if g > 0 {
        assert Depth(g) == g;
        RootFirst(dao.rows, id, g);
        assert dao.rows[id] in list;
        ghost var i :| 0 <= i < |list| && list[i] == dao.rows[id];
        assert list[i].id == Some(id);
      }
      if tree.Some? {
        TreeWithinFetched(dao.rows, id, g, list);
        if RowsBornBefore(dao.rows) {
          TreeHoldsWithin(dao.rows, id, g, list);
        }
      }
      return Ok(tree), list;
    }

    /**
     * searchForHorses: the matching rows of the table, each mapped to its list view with its
     * owner resolved through one batch lookup of the distinct owner ids, in the same order.
     */
    method SearchForHorses(p: HorseSearchDto) returns (r: Result<seq<HorseListDto>>, ghost found: seq<Horse>)
      requires Valid()
      ensures forall i | 0 <= i < |found| :: Stored(dao.rows, found[i]) && Matches(found[i], p, owners)
      ensures forall i, j | 0 <= i < j < |found| :: found[i].id != found[j].id
      ensures p.limit.None? ==> forall k | k in MatchingKeys(dao.rows, p, owners) :: dao.rows[k] in found
      ensures p.limit.None? ==> |found| == |MatchingKeys(dao.rows, p, owners)|
      ensures p.limit.Some? ==> |found| == Min(p.limit.value, |MatchingKeys(dao.rows, p, owners)|)
      ensures r.Err? <==> exists i | 0 <= i < |found| :: found[i].ownerId.Some? && found[i].ownerId.value !in owners
      ensures r.Err? ==> r.error.FatalError?
      ensures r.Ok? ==> |r.value| == |found|
      ensures r.Ok? ==> forall i | 0 <= i < |found| :: EntityToListDto(Some(found[i]), owners) == Ok(Some(r.value[i]))
    {
      var horses := dao.SearchForHorses(p, owners);
      found := horses;
      var ownerIds := set i | 0 <= i < |horses| && horses[i].ownerId.Some? :: horses[i].ownerId.value;
      var ownerMap := GetAllById(owners, ownerIds);
      forall i | 0 <= i < |horses|
        ensures EntityToListDto(Some(horses[i]), ownerMap) == EntityToListDto(Some(horses[i]), owners)
      {
        OwnersFetchedSuffice(horses[i], owners, ownerIds);
      }
      r := MapToListViews(horses, ownerMap);
    }

    /** allHorses: the search with no filter, which lists every stored horse once. */
    method AllHorses() returns (r: Result<seq<HorseListDto>>, ghost found: seq<Horse>)
      requires Valid()
      ensures forall i | 0 <= i < |found| :: Stored(dao.rows, found[i])
      ensures forall k | k in dao.rows :: dao.rows[k] in found
      ensures |found| == |dao.rows|
      ensures r.Ok? ==> |r.value| == |found|
      ensures r.Err? <==> exists i | 0 <= i < |found| :: found[i].ownerId.Some? && found[i].ownerId.value !in owners
      ensures r.Ok? ==> forall i | 0 <= i < |found| :: EntityToListDto(Some(found[i]), owners) == Ok(Some(r.value[i]))
    {
      var all := HorseSearchDto(None, None, None, None, None, None);
      EmptyFilterKeepsAll(dao.rows, owners);
      r, found := SearchForHorses(all);
    }

    /**
     * create: validates, inserts, and hands back the new horse resolved. A refused horse
     * leaves the table as it was.
     */
    method Create(h: HorseCreateDto, today: int) returns (r: Result<HorseDetailDto>)
      requires Valid()
      requires ParentDatesKnown(h.mother, h.father, h.dateOfBirth)
      modifies dao
      ensures Valid()
      ensures CreationVerdict(h, today, owners).Fail? ==>
        r == Err(CreationVerdict(h, today, owners).error) && dao.rows == old(dao.rows)
      ensures CreationVerdict(h, today, owners).Pass? ==>
        && old(dao.nextKey) !in old(dao.rows)
        && dao.rows == old(dao.rows)[old(dao.nextKey) := Horse(Some(old(dao.nextKey)), h.name, h.description,
                                     h.dateOfBirth.value, h.sex.value, h.OwnerId(), h.MotherId(), h.FatherId())]
      ensures r.Err? && !r.error.FatalError? && !r.error.StackOverflow? ==> dao.rows == old(dao.rows)
      ensures r.Ok? ==> r.value.id == (if old(dao.nextKey) == 0 then None else Some(old(dao.nextKey)))
      ensures CreationVerdict(h, today, owners).Pass? ==>
        (r.Ok? <==> DetailById(dao.rows, owners, old(dao.nextKey), |dao.rows| + 1).Ok?)
      ensures CreationVerdict(h, today, owners).Pass? && old(dao.nextKey) != 0 ==>
        r == DetailById(dao.rows, owners, old(dao.nextKey), |dao.rows| + 1)
      ensures r.Ok? ==>
        && CreationVerdict(h, today, owners).Pass?
        && r.value.name == h.name && r.value.description == h.description
        && r.value.dateOfBirth == h.dateOfBirth && r.value.sex == h.sex
        && r.value.OwnerId() == h.OwnerId() && r.value.MotherId() == h.MotherId() && r.value.FatherId() == h.FatherId()
    {
      var v := ValidateForCreation(h, today, owners);
      if v.Fail? {
        return Err(v.error);
      }
      ghost var key := dao.nextKey;
      var newHorse := dao.Create(h);
      r := DetailFor(newHorse, |dao.rows| + 1);
      DetailOfOkIgnoresId(dao.rows, owners, dao.rows[key], newHorse.id, |dao.rows| + 1);
      if r.Ok? {
        DetailOfKeepsReferences(dao.rows, owners, newHorse, |dao.rows| + 1);
        assert r.value.dateOfBirth == Some(newHorse.dateOfBirth) && r.value.sex == Some(newHorse.sex);
      }
    }

    /**
     * The retroactive check of update: only when the horse already has children, resolve them,
     * read the stored sex, and check the new data against both.
     */
    method ValidateAgainstChildren(d: HorseDetailDto, today: int) returns (r: Outcome)
      requires Valid() && d.id.Some? && d.dateOfBirth.Some?
      ensures ChildKeys(dao.rows, d.id) == {} ==> r.Pass?
      ensures r.Pass? && ChildKeys(dao.rows, d.id) != {} ==> ChildrenAllowUpdate(dao.rows, d, today)
      ensures ChildKeys(dao.rows, d.id) != {} && d.id.value in dao.rows && ChildrenResolve(dao.rows, owners, d.id) ==>
        (r.Pass? <==> ChildrenAllowUpdate(dao.rows, d, today))
      ensures r.Fail? ==> r.error.ConflictError? || r.error.NotFoundError? || r.error.FatalError? || r.error.StackOverflow?
      ensures r.Fail? && r.error.ConflictError? ==>
        && d.id.value in dao.rows && ChildrenResolve(dao.rows, owners, d.id)
        && r.error == ConflictError(RelationSummary, RelationMessages(dao.rows, d, today))
      ensures r.Fail? && (r.error.FatalError? || r.error.StackOverflow?) ==> !ChildrenResolve(dao.rows, owners, d.id)
      ensures r.Fail? && r.error.NotFoundError? ==> d.id.value !in dao.rows
      ensures r.Pass? ==> ChildrenResolve(dao.rows, owners, d.id)
      ensures ChildKeys(dao.rows, d.id) != {} && d.id.value !in dao.rows && ChildrenResolve(dao.rows, owners, d.id) ==>
        r == Fail(NotFoundError(NoHorseMsg(d.id.value)))
    {
      var isParent := dao.IsParent(d);
      if !isParent {
        return Pass;
      }
      var childRows := dao.GetAllChildren(d);
      var children: seq<HorseDetailDto> := [];
      for i := 0 to |childRows|
        invariant |children| == i
        invariant forall j | 0 <= j < i :: DetailOf(dao.rows, owners, childRows[j], |dao.rows| + 1) == Ok(children[j])
      {
        var child := DetailFor(childRows[i], |dao.rows| + 1);
        if child.Err? {
          var k := childRows[i].id.value;
          assert dao.rows[k] == childRows[i] && k in ChildKeys(dao.rows, d.id);
          assert !DetailOf(dao.rows, owners, dao.rows[k], |dao.rows| + 1).Ok?;
          return Fail(child.error);
        }
        children := children + [child.value];
      }
      assert ChildrenResolve(dao.rows, owners, d.id) by {
        forall k | k in ChildKeys(dao.rows, d.id)
          ensures DetailOf(dao.rows, owners, dao.rows[k], |dao.rows| + 1).Ok?
        {
          var j :| 0 <= j < |childRows| && childRows[j] == dao.rows[k];
        }
      }
      var stored := dao.GetById(d.id.value);
      if stored.Err? {
        return Fail(stored.error);
      }
      ChildViewsConflict(dao.rows, d, today, childRows, children);
      r := ValidateParentChildRelation(children, d, stored.value.sex, today);
    }

    /**
     * Every check update makes before it writes: validateForUpdate, then, when the horse
     * already has children, the retroactive check. A pass is what lets update write.
     */
    method CheckUpdate(d: HorseDetailDto, today: int) returns (v: Outcome)
      requires Valid()
      requires ParentDatesKnown(d.mother, d.father, d.dateOfBirth)
      ensures UpdateVerdict(d, today, owners).Fail? ==> v == Fail(UpdateVerdict(d, today, owners).error)
      ensures v.Pass? ==>
        && UpdateVerdict(d, today, owners).Pass? && d.id.Some? && d.dateOfBirth.Some?
        && (d.id.value in dao.rows ==> UpdateAllowed(dao.rows, owners, d, today))
        && (ChildKeys(dao.rows, d.id) != {} ==> ChildrenAllowUpdate(dao.rows, d, today))
      ensures UpdateAllowed(dao.rows, owners, d, today) ==> v.Pass?
      ensures v.Fail? && v.error.ValidationError? ==> UpdateVerdict(d, today, owners).Fail?
      ensures UpdateVerdict(d, today, owners).Pass? && d.id.Some? && d.dateOfBirth.Some? && v.Fail? && v.error.ConflictError? ==>
        && d.id.value in dao.rows && ChildKeys(dao.rows, d.id) != {} && ChildrenResolve(dao.rows, owners, d.id)
        && v.error == ConflictError(RelationSummary, RelationMessages(dao.rows, d, today))
      ensures v.Fail? && v.error.NotFoundError? ==> d.id.Some? && d.id.value !in dao.rows
      ensures UpdateOfMissing(dao.rows, owners, d, today) ==> v.Pass? || v == Fail(NotFoundError(NoHorseMsg(d.id.value)))
    {
      v := ValidateForUpdate(d, today, owners);
      if v.Fail? {
        return;
      }
      v := ValidateAgainstChildren(d, today);
    }

    /**
     * update: validates; when the horse already has children, resolves them and checks them
     * against the new data and the stored sex; then writes and hands back the horse resolved.
     * Any refusal leaves the table as it was.
     */
    method Update(d: HorseDetailDto, today: int) returns (r: Result<HorseDetailDto>)
      requires Valid()
      requires ParentDatesKnown(d.mother, d.father, d.dateOfBirth)
      modifies dao
      ensures Valid()
      ensures UpdateVerdict(d, today, owners).Fail? ==>
        r == Err(UpdateVerdict(d, today, owners).error) && dao.rows == old(dao.rows)
      ensures r.Err? && !r.error.FatalError? && !r.error.StackOverflow? ==> dao.rows == old(dao.rows)
      ensures r.Err? && r.error.NotFoundError? ==> d.id.Some? && d.id.value !in old(dao.rows)
      ensures r.Ok? ==>
        && UpdateVerdict(d, today, owners).Pass?
        && d.id.Some? && d.id.value in old(dao.rows)
        && dao.rows == old(dao.rows)[d.id.value := Horse(d.id, d.name, d.description, d.dateOfBirth.value,
                                                         d.sex.value, d.OwnerId(), d.MotherId(), d.FatherId())]
        && r.value.id == d.id && r.value.name == d.name && r.value.description == d.description
        && r.value.dateOfBirth == d.dateOfBirth && r.value.sex == d.sex
        && r.value.OwnerId() == d.OwnerId() && r.value.MotherId() == d.MotherId() && r.value.FatherId() == d.FatherId()
      ensures r.Ok? && ChildKeys(old(dao.rows), d.id) != {} ==> ChildrenAllowUpdate(old(dao.rows), d, today)
      ensures r.Err? && r.error.ValidationError? ==> UpdateVerdict(d, today, owners).Fail?
      ensures UpdateVerdict(d, today, owners).Pass? && d.id.Some? && d.dateOfBirth.Some? && r.Err? && r.error.ConflictError? ==>
        && d.id.value in old(dao.rows) && ChildKeys(old(dao.rows), d.id) != {} && ChildrenResolve(old(dao.rows), owners, d.id)
        && r.error == ConflictError(RelationSummary, RelationMessages(old(dao.rows), d, today))
      ensures dao.rows != old(dao.rows) ==> UpdateAllowed(old(dao.rows), owners, d, today)
      ensures UpdateAllowed(old(dao.rows), owners, d, today) ==> r == DetailById(dao.rows, owners, d.id.value, |dao.rows| + 1)
      ensures UpdateOfMissing(old(dao.rows), owners, d, today) ==> r.Err? && r.error.NotFoundError? && dao.rows == old(dao.rows)
      ensures UpdateAllowed(old(dao.rows), owners, d, today) ==>
        && dao.rows == old(dao.rows)[d.id.value := Horse(d.id, d.name, d.description, d.dateOfBirth.value,
                                                         d.sex.value, d.OwnerId(), d.MotherId(), d.FatherId())]
        && (r.Err? ==> r.error.FatalError? || r.error.StackOverflow?)
    {
      var v := CheckUpdate(d, today);
      if v.Fail? {
        return Err(v.error);
      }
      r := WriteUpdate(d);
    }

    /** The write of update, once every check has passed: the table's update, then the written row resolved. */
    method WriteUpdate(d: HorseDetailDto) returns (r: Result<HorseDetailDto>)
      requires Valid() && d.dateOfBirth.Some? && d.sex.Some?
      modifies dao
      ensures Valid()
      ensures d.id.None? || d.id.value !in old(dao.rows) ==>
        r == Err(NotFoundError(UpdateMissingMsg(d.id))) && dao.rows == old(dao.rows)
      ensures d.id.Some? && d.id.value in old(dao.rows) ==>
        && dao.rows == old(dao.rows)[d.id.value := Horse(d.id, d.name, d.description, d.dateOfBirth.value,
                                                         d.sex.value, d.OwnerId(), d.MotherId(), d.FatherId())]
        && r == DetailById(dao.rows, owners, d.id.value, |dao.rows| + 1)
      ensures r.Ok? ==>
        && r.value.id == d.id && r.value.name == d.name && r.value.description == d.description
        && r.value.dateOfBirth == d.dateOfBirth && r.value.sex == d.sex
        && r.value.OwnerId() == d.OwnerId() && r.value.MotherId() == d.MotherId() && r.value.FatherId() == d.FatherId()
    {
      var updated := dao.Update(d);
      if updated.Err? {
        return Err(updated.error);
      }
      r := DetailFor(updated.value, |dao.rows| + 1);
      if r.Ok? {
        DetailOfKeepsReferences(dao.rows, owners, updated.value, |dao.rows| + 1);
      }
    }

    /** delete: the table's delete; NotFound passes through. */
    method Delete(id: int) returns (r: Outcome)
      requires Valid()
      modifies dao
      ensures Valid()
      ensures r.Fail? <==> id !in old(dao.rows)
      ensures r.Fail? ==> r.error == NotFoundError(DeleteMissingMsg(id)) && dao.rows == old(dao.rows)
      ensures r.Pass? ==> dao.rows == old(dao.rows) - {id}
    {
      r := dao.Delete(id);
    }
  }
}
