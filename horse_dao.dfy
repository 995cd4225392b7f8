/**
 * The horse table and the queries on it. The table is a map from id to row; the owner
 * table, which the search joins, is a map from id to owner.
 */
module Persistence {
  import opened Wrappers
  import opened Text
  import opened Dto
  import opened Entity

  function NoHorseMsg(id: int): string
  {
    "No horse with ID " + IntToString(id) + " found"
  }

  function DeleteMissingMsg(id: int): string
  {
    "Could not delete horse with ID " + IntToString(id) + ", because it does not exist"
  }

  function UpdateMissingMsg(id: Option<int>): string
  {
    "Could not update horse with ID " + LongToString(id) + ", because it does not exist"
  }

  const TreeRootMissingMsg := "Horse not Found"

  // ---------------------------------------------------------------------------
  // Children

  /** The keys of the rows that name `parent` as mother or father (`mother_id = ? OR father_id = ?`). */
  function ChildKeys(rows: map<int, Horse>, parent: Option<int>): (r: set<int>)
    ensures r <= rows.Keys
    ensures parent.None? ==> r == {}
  {
    set k | k in rows && IsChildOf(rows[k], parent)
  }

  // ---------------------------------------------------------------------------
  // Search

  /** The owner's name as the join shows it: `first_name || ' ' || last_name`. */
  function FullName(o: OwnerDto): string
  {
    o.firstName + " " + o.lastName
  }

  /** `? IS NULL OR UPPER(column) LIKE UPPER('%' || ? || '%')`: a null column never matches a given filter. */
  predicate TextMatches(column: Option<string>, filter: Option<string>)
  {
    filter.None? || (column.Some? && ContainsIgnoreCase(column.value, filter.value))
  }

  /** The owner-name condition over the left join: a horse without a (joinable) owner has a null full name. */
  predicate OwnerMatches(h: Horse, owners: map<int, OwnerDto>, filter: Option<string>)
  {
    filter.None? || (h.ownerId.Some? && h.ownerId.value in owners && ContainsIgnoreCase(FullName(owners[h.ownerId.value]), filter.value))
  }

  /** The WHERE clause of the search: every given filter holds. */
  predicate Matches(h: Horse, p: HorseSearchDto, owners: map<int, OwnerDto>)
  {
    && TextMatches(h.name, p.name)
    && TextMatches(h.description, p.description)
    && (p.sex.None? || h.sex == p.sex.value)
    && (p.bornBefore.None? || h.dateOfBirth < p.bornBefore.value)
    && OwnerMatches(h, owners, p.ownerName)
  }

  /** The keys of every row the WHERE clause keeps. */
  function MatchingKeys(rows: map<int, Horse>, p: HorseSearchDto, owners: map<int, OwnerDto>): (r: set<int>)
    ensures r <= rows.Keys
  {
    set k | k in rows && Matches(rows[k], p, owners)
  }

  /** A filter with no component set keeps every row. */
  lemma EmptyFilterKeepsAll(rows: map<int, Horse>, owners: map<int, OwnerDto>)
    ensures MatchingKeys(rows, HorseSearchDto(None, None, None, None, None, None), owners) == rows.Keys
  {
    var p := HorseSearchDto(None, None, None, None, None, None);
    forall k | k in rows
      ensures k in MatchingKeys(rows, p, owners)
    {
      assert Matches(rows[k], p, owners);
    }
  }

  /** Adding a filter component never widens the result. */
  lemma NarrowingFilterShrinks(rows: map<int, Horse>, p: HorseSearchDto, owners: map<int, OwnerDto>, name: string)
    requires p.name.None?
    ensures MatchingKeys(rows, p.(name := Some(name)), owners) <= MatchingKeys(rows, p, owners)
  {
    var q := p.(name := Some(name));
    forall k | k in MatchingKeys(rows, q, owners)
      ensures k in MatchingKeys(rows, p, owners)
    {
      assert Matches(rows[k], q, owners);
    }
  }

  // ---------------------------------------------------------------------------
  // Ancestors

  /** The stored parents of the horses with keys in `ks`: one step of the recursive join. */
  function ParentKeys(rows: map<int, Horse>, ks: set<int>): (r: set<int>)
    ensures r <= rows.Keys
  {
    set p | p in rows && exists c | c in ks :: IsParentStep(rows, c, p)
  }

  /**
   * The keys of the rows at distance `n` from `root`: generation n + 1 of the recursive
   * query (`recLevel` = n + 1).
   */
  function Level(rows: map<int, Horse>, root: int, n: nat): (r: set<int>)
    ensures r <= rows.Keys
  {
    if n == 0 then (if root in rows then {root} else {})
    else ParentKeys(rows, Level(rows, root, n - 1))
  }

  /** The keys at distance less than `n` from `root`. */
  function Within(rows: map<int, Horse>, root: int, n: nat): (r: set<int>)
    ensures r <= rows.Keys
  {
    if n == 0 then {} else Within(rows, root, n - 1) + Level(rows, root, n - 1)
  }

  /** `path` walks from a stored horse to a stored parent, then to that one's parent, and so on. */
  predicate IsAncestorPath(rows: map<int, Horse>, path: seq<int>)
  {
    && |path| > 0 && path[0] in rows
    && forall i | 0 <= i < |path| - 1 :: IsParentStep(rows, path[i], path[i + 1])
  }

  /** Every member of level `n` is reached from the root by a path of exactly `n` parent steps. */
  lemma {:induction false} LevelHasPath(rows: map<int, Horse>, root: int, n: nat, k: int) returns (path: seq<int>)
    requires k in Level(rows, root, n)
    ensures |path| == n + 1 && path[0] == root && path[n] == k && IsAncestorPath(rows, path)
  {
    if n == 0 {
      path := [root];
    } else {
      var c :| c in Level(rows, root, n - 1) && IsParentStep(rows, c, k);
      var prefix := LevelHasPath(rows, root, n - 1, c);
      path := prefix + [k];
      assert forall i | 0 <= i < |path| - 1 :: path[i] == prefix[i];
    }
  }

  /** Conversely, the end of every path of `n` parent steps from the root is in level `n`. */
  lemma {:induction false} PathInLevel(rows: map<int, Horse>, path: seq<int>)
    requires IsAncestorPath(rows, path)
    ensures path[|path| - 1] in Level(rows, path[0], |path| - 1)
    decreases |path|
  {
    if |path| > 1 {
      var prefix := path[..|path| - 1];
      forall i | 0 <= i < |prefix| - 1
        ensures IsParentStep(rows, prefix[i], prefix[i + 1])
      {
        assert prefix[i] == path[i] && prefix[i + 1] == path[i + 1];
      }
      PathInLevel(rows, prefix);
      assert IsParentStep(rows, path[|path| - 2], path[|path| - 1]);
    }
  }

  /** `Within` holds exactly the members of the levels below `n`. */
  lemma {:induction false} WithinIsLevels(rows: map<int, Horse>, root: int, n: nat, k: int)
    ensures k in Within(rows, root, n) <==> exists m | 0 <= m < n :: k in Level(rows, root, m)
  {
    if n > 0 {
      WithinIsLevels(rows, root, n - 1, k);
      if k in Level(rows, root, n - 1) {
        assert exists m | 0 <= m < n :: k in Level(rows, root, m);
      }
      if exists m | 0 <= m < n :: k in Level(rows, root, m) {
        var m :| 0 <= m < n && k in Level(rows, root, m);
        if m < n - 1 {
          assert exists m' | 0 <= m' < n - 1 :: k in Level(rows, root, m');
        }
      }
    }
  }

  /** Within grows with the bound: a deeper fetch never loses a horse. */
  lemma {:induction false} WithinGrows(rows: map<int, Horse>, root: int, m: nat, n: nat)
    requires m <= n
    ensures Within(rows, root, m) <= Within(rows, root, n)
    decreases n
  {
    if m < n {
      WithinGrows(rows, root, m, n - 1);
    }
  }

  /** The root is the only horse of the first generation, and it is present iff it is stored. */
  lemma RootFirst(rows: map<int, Horse>, root: int, n: nat)
    requires n > 0
    ensures root in rows <==> root in Within(rows, root, n)
  {
    WithinIsLevels(rows, root, n, root);
    if root in Within(rows, root, n) {
      var m :| 0 <= m < n && root in Level(rows, root, m);
    }
  }

  /** Without the root, the recursive query finds nothing at all. */
  lemma {:induction false} NoRootNoAncestors(rows: map<int, Horse>, root: int, n: nat)
    requires root !in rows
    ensures Within(rows, root, n) == {} && Level(rows, root, n) == {}
  {
    if n > 0 {
      NoRootNoAncestors(rows, root, n - 1);
      assert ParentKeys(rows, {}) == {};
    }
  }

  /** The generation count the recursive query stops at: at least the root's own generation. */
  function Depth(generations: int): (r: nat)
    ensures r >= 1 && (generations >= 1 ==> r == generations)
  {
    if generations < 1 then 1 else generations
  }

  // ---------------------------------------------------------------------------
  // The table

  class HorseJdbcDao {
    var rows: map<int, Horse>
    /** The key the store generates next. */
    var nextKey: int

    ghost predicate Valid()
      reads this
    {
      RowsConsistent(rows) && forall k | k in rows :: k < nextKey
    }

    constructor(initial: map<int, Horse>, firstKey: int)
      requires RowsConsistent(initial) && forall k | k in initial :: k < firstKey
      ensures Valid() && rows == initial && nextKey == firstKey
    {
      rows := initial;
      nextKey := firstKey;
    }

    /** getById: the row stored under `id`, or NotFound. */
    method GetById(id: int) returns (r: Result<Horse>)
      requires Valid()
      ensures r.Err? <==> id !in rows
      ensures r.Err? ==> r.error == NotFoundError(NoHorseMsg(id))
      ensures r.Ok? ==> r.value == rows[id] && r.value.id == Some(id)
    {
      if id !in rows {
        return Err(NotFoundError(NoHorseMsg(id)));
      }
      return Ok(rows[id]);
    }

    /**
     * create: inserts a row under a freshly generated key and hands back the input's data
     * with that key, or with a null id when the key is 0.
     */
    method Create(h: HorseCreateDto) returns (r: Horse)
      requires Valid()
      requires h.dateOfBirth.Some? && h.sex.Some?
      modifies this
      ensures Valid()
      ensures old(nextKey) !in old(rows) && |rows| == |old(rows)| + 1
      ensures rows == old(rows)[old(nextKey) := r.(id := Some(old(nextKey)))]
      ensures r.id == (if old(nextKey) == 0 then None else Some(old(nextKey)))
      ensures && r.name == h.name && r.description == h.description
              && r.dateOfBirth == h.dateOfBirth.value && r.sex == h.sex.value
              && r.ownerId == h.OwnerId() && r.motherId == h.MotherId() && r.fatherId == h.FatherId()
    {
      var key := nextKey;
      var row := Horse(Some(key), h.name, h.description, h.dateOfBirth.value, h.sex.value,
                       h.OwnerId(), h.MotherId(), h.FatherId());
      rows := rows[key := row];
      nextKey := nextKey + 1;
      r := row.(id := if key == 0 then None else Some(key));
    }

    /** delete: removes the row under `id`, or NotFound when there is none; no other row changes. */
    method Delete(id: int) returns (r: Outcome)
      requires Valid()
      modifies this
      ensures Valid()
      ensures r.Fail? <==> id !in old(rows)
      ensures r.Fail? ==> r.error == NotFoundError(DeleteMissingMsg(id)) && rows == old(rows)
      ensures r.Pass? ==> rows == old(rows) - {id}
      ensures nextKey == old(nextKey)
    {
      var found := GetById(id);
      if found.Err? {
        return Fail(NotFoundError(DeleteMissingMsg(id)));
      }
      rows := rows - {id};
      return Pass;
    }

    /**
     * update: replaces every field of the row under the horse's id and hands back the new
     * values; NotFound when the id is null or not stored. No other row changes.
     */
    method Update(d: HorseDetailDto) returns (r: Result<Horse>)
      requires Valid()
      requires d.dateOfBirth.Some? && d.sex.Some?
      modifies this
      ensures Valid()
      ensures nextKey == old(nextKey)
      ensures r.Err? <==> d.id.None? || d.id.value !in old(rows)
      ensures r.Err? ==> r.error == NotFoundError(UpdateMissingMsg(d.id)) && rows == old(rows)
      ensures r.Ok? ==>
        && r.value == Horse(d.id, d.name, d.description, d.dateOfBirth.value, d.sex.value,
                            d.OwnerId(), d.MotherId(), d.FatherId())
        && rows == old(rows)[d.id.value := r.value]
    {
      if d.id.None? || d.id.value !in rows {
        return Err(NotFoundError(UpdateMissingMsg(d.id)));
      }
      var row := Horse(d.id, d.name, d.description, d.dateOfBirth.value, d.sex.value,
                       d.OwnerId(), d.MotherId(), d.FatherId());
      rows := rows[d.id.value := row];
      return Ok(row);
    }

    /** getAllChildren: every stored row that names the horse as mother or father, each once. */
    method GetAllChildren(d: HorseDetailDto) returns (r: seq<Horse>)
      requires Valid()
      ensures forall i | 0 <= i < |r| :: Stored(rows, r[i]) && IsChildOf(r[i], d.id)
      ensures forall k | k in ChildKeys(rows, d.id) :: rows[k] in r
      ensures forall i, j | 0 <= i < j < |r| :: r[i].id != r[j].id
      ensures |r| == |ChildKeys(rows, d.id)|
    {
      r := RowsOf(ChildKeys(rows, d.id));
    }

    /** isParent: the horse has at least one stored child. */
    method IsParent(d: HorseDetailDto) returns (b: bool)
      requires Valid()
      ensures b <==> ChildKeys(rows, d.id) != {}
      ensures d.id.None? ==> !b
    {
      var children := GetAllChildren(d);
      b := |children| != 0;
    }

    /**
     * searchForHorses: every stored row the filter keeps, each once, in no particular order;
     * with a limit, exactly as many as the limit allows.
     */
    method SearchForHorses(p: HorseSearchDto, owners: map<int, OwnerDto>) returns (r: seq<Horse>)
      requires Valid()
      ensures forall i | 0 <= i < |r| :: Stored(rows, r[i]) && Matches(r[i], p, owners)
      ensures forall i, j | 0 <= i < j < |r| :: r[i].id != r[j].id
      ensures p.limit.None? ==> forall k | k in MatchingKeys(rows, p, owners) :: rows[k] in r
      ensures p.limit.None? ==> |r| == |MatchingKeys(rows, p, owners)|
      ensures p.limit.Some? ==> |r| == Min(p.limit.value, |MatchingKeys(rows, p, owners)|)
    {
      var keys := MatchingKeys(rows, p, owners);
      if p.limit.Some? {
        keys := TakeAtMost(keys, p.limit.value);
      }
      r := RowsOf(keys);
    }

    /** The rows stored under the keys in `keys`, each once. */
    method RowsOf(keys: set<int>) returns (r: seq<Horse>)
      requires Valid() && keys <= rows.Keys
      ensures |r| == |keys|
      ensures forall i | 0 <= i < |r| :: Stored(rows, r[i]) && r[i].id.value in keys
      ensures forall k | k in keys :: rows[k] in r
      ensures forall i, j | 0 <= i < j < |r| :: r[i].id != r[j].id
    {
      r := [];
      var todo := keys;
      while todo != {}
        invariant todo <= keys
        invariant |r| + |todo| == |keys|
        invariant forall i | 0 <= i < |r| :: Stored(rows, r[i]) && r[i].id.value in keys - todo
        invariant forall k | k in keys - todo :: rows[k] in r
        invariant forall i, j | 0 <= i < j < |r| :: r[i].id != r[j].id
        decreases todo
      {
        var k := PickOne(todo);
        r := r + [rows[k]];
        todo := todo - {k};
      }
    }

    /**
     * getFamilyTree: the recursive query expands generation by generation from the root
     * (generation 1) while the generation is below `generations`. NotFound when the root is
     * not stored, whatever `generations` is; an empty list for 0 generations.
     */
    method GetFamilyTree(id: int, generations: int) returns (r: Result<seq<Horse>>)
      requires Valid()
      ensures r.Err? <==> id !in rows
      ensures r.Err? ==> r.error == NotFoundError(TreeRootMissingMsg)
      ensures r.Ok? && generations == 0 ==> r.value == []
      ensures r.Ok? && generations != 0 ==>
        && (forall i | 0 <= i < |r.value| :: Stored(rows, r.value[i]) && r.value[i].id.value in Within(rows, id, Depth(generations)))
        && (forall k | k in Within(rows, id, Depth(generations)) :: rows[k] in r.value)
    {
      var depth := if generations < 1 then 1 else generations;
      var level: set<int> := if id in rows then {id} else {};
      var ancestors: set<int> := {};
      var n := 0;
      while n < depth
        invariant 0 <= n <= depth
        invariant level == Level(rows, id, n)
        invariant ancestors == Within(rows, id, n)
      {
        ancestors := ancestors + level;
        level := ParentKeys(rows, level);
        n := n + 1;
      }
      assert depth == Depth(generations);
      RootFirst(rows, id, depth);
      if id !in rows {
        NoRootNoAncestors(rows, id, depth);
      }
      if ancestors == {} {
        return Err(NotFoundError(TreeRootMissingMsg));
      }
      if generations == 0 {
        return Ok([]);
      }
      var horses := RowsOf(ancestors);
      assert n == depth && ancestors == Within(rows, id, Depth(generations));
      assert forall i | 0 <= i < |horses| :: Stored(rows, horses[i]) && horses[i].id.value in ancestors;
      assert forall k | k in ancestors :: rows[k] in horses;
      return Ok(horses);
    }
  }

  function Min(a: int, b: int): int
  {
    if a < b then a else b
  }

  /** Any member of a non-empty set: the order in which a query visits rows is unspecified. */
  method PickOne<T>(s: set<T>) returns (k: T)
    requires s != {}
    ensures k in s
  {
    k :| k in s;
  }

  /** Some `n` members of `s`, or all of them when it has fewer: what a LIMIT leaves of a result. */
  method TakeAtMost<T>(s: set<T>, n: nat) returns (t: set<T>)
    ensures t <= s
    ensures |t| == Min(n, |s|)
  {
    t := {};
    var rest := s;
    while rest != {} && |t| < n
      invariant t <= s && rest == s - t && |t| <= n
      invariant |t| + |rest| == |s|
      decreases rest
    {
      var k := PickOne(rest);
      t := t + {k};
      rest := rest - {k};
    }
  }

  lemma SubsetCard(a: set<int>, b: set<int>)
    requires a <= b
    ensures |a| <= |b|
  {
    assert b == a + (b - a);
  }
}
