/** A row of the horse table. */
module Entity {
  import opened Wrappers
  import opened Dto

  /**
   * The stored horse. The id is a nullable Long (create hands back a null id when the
   * generated key is 0); the date of birth and the sex are never null in a row.
   */
  datatype Horse = Horse(
    id: Option<int>,
    name: Option<string>,
    description: Option<string>,
    dateOfBirth: int,
    sex: Sex,
    ownerId: Option<int>,
    motherId: Option<int>,
    fatherId: Option<int>)

  /** Every row of the table sits under its own id. */
  ghost predicate RowsConsistent(rows: map<int, Horse>)
  {
    forall k | k in rows :: rows[k].id == Some(k)
  }

  /** `h` is exactly the row stored under its id. */
  ghost predicate Stored(rows: map<int, Horse>, h: Horse)
  {
    h.id.Some? && h.id.value in rows && rows[h.id.value] == h
  }

  /** `h` names the horse with id `parent` as its mother or its father (SQL `mother_id = ? OR father_id = ?`). */
  predicate IsChildOf(h: Horse, parent: Option<int>)
  {
    parent.Some? && (h.motherId == parent || h.fatherId == parent)
  }

  /** The stored horse `child` names the stored horse `parent` as mother or father. */
  predicate IsParentStep(rows: map<int, Horse>, child: int, parent: int)
  {
    child in rows && parent in rows && (rows[child].motherId == Some(parent) || rows[child].fatherId == Some(parent))
  }
}
