# Horse pedigree backend: a verified model

This project models the pedigree logic of a small horse-breeding backend in Dafny. The
backend stores horses in a table. Each horse may name an owner, a mother and a father. The
modelled parts are:

- the validators that vet a horse or an owner before it is written;
- the table's queries:
  - lookup by id, insert, update and delete;
  - the children of a horse;
  - the filtered search;
  - the recursive fetch of a horse's ancestors;
- the mapper that turns rows into list, detail and family-tree views;
- the service that puts these together.

The model has one module per source class:

| file | module | source |
|---|---|---|
| `wrappers.dfy` | `Wrappers` | nullable values, the four exception kinds, results |
| `text.dfy` | `Text` | `String.isBlank`, upper-casing, substring search, decimal formatting |
| `dto.dfy` | `Dto` | the records crossing the service boundary and the id accessors |
| `entity.dfy` | `Entity` | the stored horse row |
| `horse_validator.dfy` | `HorseValidator` | `HorseValidator` |
| `owner_validator.dfy` | `OwnerValidator` | `OwnerValidator`, including the e-mail pattern written out as a recognizer |
| `horse_dao.dfy` | `Persistence` | `HorseJdbcDao`: a class over a `map<int, Horse>` with a key counter |
| `horse_mapper.dfy` | `HorseMapper` | `HorseMapper` |
| `horse_service.dfy` | `Service` | `HorseServiceImpl`: a class over the table and the owner table |

Modelling conventions:

- A Java reference that may be null becomes an `Option`.
- Dates are day numbers. The current date is the parameter `today`.
- An exception becomes an `Error` carried in a `Result` or an `Outcome`.
  - A `ValidationError` or `ConflictError` carries its summary and every message that fired.
  - A `NotFoundError` or `FatalError` carries its one message.
- The owner service is an owner table, `map<int, OwnerDto>`.

The source recurses without a bound in two places:

- The service's `getById` and `parentMapForSingleId` call each other up the whole ancestry.
- The mapper's `entityToFamilyTreeDto` calls itself for each parent.

Both are modelled with a fuel parameter. Running out of fuel in the service is the error
`StackOverflow`, which stands for the runtime's `StackOverflowError`. Lemmas prove that, when
parents are born before their children, the fuel the model uses is enough. More fuel then
changes nothing (`Service.ServiceFuelSuffices`, `HorseMapper.ListLengthFuelSuffices`).

Three behaviours of the code are worth stating on their own, and the model follows them:

- `delete` issues only the `DELETE` of the row (HorseJdbcDao.java:160-171). The statements
  that would clear the children's parent references (`SQL_REMOVE_FATHER`, `SQL_REMOVE_MOTHER`,
  HorseJdbcDao.java:52-53) are never executed. The interface documentation says that delete
  removes every relationship including the horse (HorseService.java:63-70,
  HorseDao.java:55-58); the implementation does not do so. What happens to the children's
  references then depends on the database schema, which is not part of the source. The model
  removes exactly the row.
- The retroactive birthday check on update allows a parent born on the same day as its
  earliest child. It counts today as one of the dates the parent may not be born after.
- The owner-name search keeps a horse when the filter occurs in the owner's "first last"
  name, ignoring case. A horse without an owner never matches a given owner-name filter.

## Model

| member | source | states |
|---|---|---|
| Dto.HorseCreateDto.OwnerId | backend/src/main/java/at/ac/tuwien/sepm/assignment/individual/dto/HorseCreateDto.java:27-31 | null iff the owner is null; otherwise the owner's id |
| Dto.HorseCreateDto.MotherId | backend/src/main/java/at/ac/tuwien/sepm/assignment/individual/dto/HorseCreateDto.java:33-37 | null when the mother is null; otherwise the mother's id |
| Dto.HorseCreateDto.FatherId | backend/src/main/java/at/ac/tuwien/sepm/assignment/individual/dto/HorseCreateDto.java:39-43 | null when the father is null; otherwise the father's id |
| Dto.HorseDetailDto.WithId | backend/src/main/java/at/ac/tuwien/sepm/assignment/individual/dto/HorseDetailDto.java:28-39 | the new id, with every other component kept |
| Dto.HorseDetailDto.OwnerId | backend/src/main/java/at/ac/tuwien/sepm/assignment/individual/dto/HorseDetailDto.java:41-45 | null iff the owner is null; otherwise the owner's id |
| Dto.HorseDetailDto.MotherId | backend/src/main/java/at/ac/tuwien/sepm/assignment/individual/dto/HorseDetailDto.java:47-51 | null when the mother is null; otherwise the mother's id |
| Dto.HorseDetailDto.FatherId | backend/src/main/java/at/ac/tuwien/sepm/assignment/individual/dto/HorseDetailDto.java:53-57 | null when the father is null; otherwise the father's id |
| Dto.WithIdKeepsReferences | backend/src/main/java/at/ac/tuwien/sepm/assignment/individual/dto/HorseDetailDto.java:28-57 | withId keeps the owner, mother and father ids; it is idempotent; re-applying the horse's own id changes nothing |
| HorseValidator.DateOfBirthErrors | backend/src/main/java/at/ac/tuwien/sepm/assignment/individual/service/impl/HorseValidator.java:180-190 | at most one message: "empty" for null, "future" strictly after today, none iff the date is given and not after today |
| HorseValidator.NameErrors | backend/src/main/java/at/ac/tuwien/sepm/assignment/individual/service/impl/HorseValidator.java:192-203 | at most one message: "empty" for null or blank, else "too long" above 255 characters; none iff the name is valid |
| HorseValidator.SexErrors | backend/src/main/java/at/ac/tuwien/sepm/assignment/individual/service/impl/HorseValidator.java:211-219 | one message iff the sex is null |
| HorseValidator.DescriptionErrors | backend/src/main/java/at/ac/tuwien/sepm/assignment/individual/service/impl/HorseValidator.java:227-240 | nothing for null; otherwise "blank" and "too long" fire independently, each iff its condition holds |
| HorseValidator.IdErrors | backend/src/main/java/at/ac/tuwien/sepm/assignment/individual/service/impl/HorseValidator.java:265-273 | "No Id given" iff the id is null |
| HorseValidator.FieldErrors | backend/src/main/java/at/ac/tuwien/sepm/assignment/individual/service/impl/HorseValidator.java:75-99 | the field messages are empty iff every field is valid; "future" and "blank description" appear iff their conditions hold |
| HorseValidator.OwnerCheck | backend/src/main/java/at/ac/tuwien/sepm/assignment/individual/service/impl/HorseValidator.java:248-257 | passes iff the owner is null or known; otherwise a fatal error naming the owner id, never a validation message |
| HorseValidator.ParentConflicts | backend/src/main/java/at/ac/tuwien/sepm/assignment/individual/service/impl/HorseValidator.java:141-171 | each of the five rules (female father, father not older, male mother, mother not older, same sex) contributes its message iff it holds; empty iff the parents are consistent |
| HorseValidator.ValidateParents | backend/src/main/java/at/ac/tuwien/sepm/assignment/individual/service/impl/HorseValidator.java:141-171 | passes iff the parents are consistent; otherwise a conflict (never a validation error) carrying every rule that fired |
| HorseValidator.CreationVerdict | backend/src/main/java/at/ac/tuwien/sepm/assignment/individual/service/impl/HorseValidator.java:75-99 | passes iff the owner resolves, the fields are valid and the parents are consistent; a missing owner is fatal first; field errors win over conflicts |
| HorseValidator.UpdateErrors | backend/src/main/java/at/ac/tuwien/sepm/assignment/individual/service/impl/HorseValidator.java:41-66 | empty iff the fields are valid and the id is given; "No Id given" iff the id is null |
| HorseValidator.UpdateVerdict | backend/src/main/java/at/ac/tuwien/sepm/assignment/individual/service/impl/HorseValidator.java:41-66 | passes iff owner, fields, id and parents are all fine; fatal first, then validation errors, then conflicts |
| HorseValidator.ValidateForCreation | backend/src/main/java/at/ac/tuwien/sepm/assignment/individual/service/impl/HorseValidator.java:75-99 | the accumulating method reaches exactly the creation verdict |
| HorseValidator.ValidateForUpdate | backend/src/main/java/at/ac/tuwien/sepm/assignment/individual/service/impl/HorseValidator.java:41-66 | the accumulating method reaches exactly the update verdict |
| HorseValidator.ValidateParentChildRelation | backend/src/main/java/at/ac/tuwien/sepm/assignment/individual/service/impl/HorseValidator.java:110-129 | passes iff no child and not today is strictly before the new birth date and the sex is unchanged; otherwise a conflict with both messages as they fire |
| HorseValidator.FutureReportedBeforeBlank | backend/src/main/java/at/ac/tuwien/sepm/assignment/individual/service/impl/HorseValidator.java:75-99 | a future date and an empty description give exactly ["future", "blank"], in that order |
| HorseValidator.BlankAndTooLongBothFire | backend/src/main/java/at/ac/tuwien/sepm/assignment/individual/service/impl/HorseValidator.java:227-240 | an all-space description over 4095 characters reports blank, then too long |
| HorseValidator.ValidationWinsOverConflicts | backend/src/main/java/at/ac/tuwien/sepm/assignment/individual/service/impl/HorseValidator.java:75-99 | with invalid fields the verdict is a validation error with exactly the field messages, whatever the parents |
| HorseValidator.UpdateIsCreationPlusId | backend/src/main/java/at/ac/tuwien/sepm/assignment/individual/service/impl/HorseValidator.java:41-66 | an update passes iff the same data would pass creation and the id is given |
| OwnerValidator.NameErrors | backend/src/main/java/at/ac/tuwien/sepm/assignment/individual/service/impl/OwnerValidator.java:33-44 | each blank and each too-long message appears iff its name is null or blank, resp. longer than 255 |
| OwnerValidator.EmailErrors | backend/src/main/java/at/ac/tuwien/sepm/assignment/individual/service/impl/OwnerValidator.java:46-56 | nothing for a null address; otherwise "too long" and "malformed" independently, each iff its condition holds |
| OwnerValidator.OwnerErrors | backend/src/main/java/at/ac/tuwien/sepm/assignment/individual/service/impl/OwnerValidator.java:29-60 | empty iff the owner is valid; each of the six messages appears iff its condition holds |
| OwnerValidator.CheckEmail | backend/src/main/java/at/ac/tuwien/sepm/assignment/individual/service/impl/OwnerValidator.java:46-56 | the e-mail block yields exactly the e-mail messages for a given address |
| OwnerValidator.ValidateOwnerForCreation | backend/src/main/java/at/ac/tuwien/sepm/assignment/individual/service/impl/OwnerValidator.java:29-60 | throws iff some check fired, carrying every message in check order |
| OwnerValidator.ExampleAddressAccepted | backend/src/main/java/at/ac/tuwien/sepm/assignment/individual/service/impl/OwnerValidator.java:50-55 | the address the message cites, example@mail.com, matches the pattern |
| OwnerValidator.AcceptedAddressShape | backend/src/main/java/at/ac/tuwien/sepm/assignment/individual/service/impl/OwnerValidator.java:50-55 | an accepted address contains '@' and '.' and ends in two letters |
| OwnerValidator.LongAddressWithoutAtBothFire | backend/src/main/java/at/ac/tuwien/sepm/assignment/individual/service/impl/OwnerValidator.java:46-56 | an over-long address without '@' reports too long, then malformed, and nothing else |
| HorseMapper.Resolve | backend/src/main/java/at/ac/tuwien/sepm/assignment/individual/mapper/HorseMapper.java:140-151 | a null reference gives null; a missing key is fatal; otherwise the map's entry |
| HorseMapper.GetOwner | backend/src/main/java/at/ac/tuwien/sepm/assignment/individual/mapper/HorseMapper.java:140-151 | fatal iff the owner id is given and not in the map, with the owner message; else null iff no owner, otherwise the map's entry |
| HorseMapper.GetMother | backend/src/main/java/at/ac/tuwien/sepm/assignment/individual/mapper/HorseMapper.java:160-171 | the same for the mother |
| HorseMapper.GetFather | backend/src/main/java/at/ac/tuwien/sepm/assignment/individual/mapper/HorseMapper.java:180-191 | the same for the father |
| HorseMapper.EntityToListDto | backend/src/main/java/at/ac/tuwien/sepm/assignment/individual/mapper/HorseMapper.java:37-52 | null for null; fails iff the owner lookup fails; otherwise copies id, name, description, birth date and sex with the resolved owner |
| HorseMapper.EntityToDetailDto | backend/src/main/java/at/ac/tuwien/sepm/assignment/individual/mapper/HorseMapper.java:64-85 | null for null; fails iff a lookup fails, with the owner's error when the owner fails, else the mother's when the mother fails, else the father's; otherwise copies the fields with all three resolved |
| HorseMapper.DetailDtoToParentDto | backend/src/main/java/at/ac/tuwien/sepm/assignment/individual/mapper/HorseMapper.java:93-102 | keeps id, name, description, birth date and sex |
| HorseMapper.DetailKeepsReferences | backend/src/main/java/at/ac/tuwien/sepm/assignment/individual/mapper/HorseMapper.java:64-85 | with maps keyed by their entries' ids, the detail view's owner, mother and father ids are the row's |
| HorseMapper.ListAgreesWithDetail | backend/src/main/java/at/ac/tuwien/sepm/assignment/individual/mapper/HorseMapper.java:37-85 | when the detail view exists, the list view exists and is the detail view without parents |
| HorseMapper.LastMatch | backend/src/main/java/at/ac/tuwien/sepm/assignment/individual/mapper/HorseMapper.java:115-129 | the index of the last row with the id, null iff there is none |
| HorseMapper.FamilyTree | backend/src/main/java/at/ac/tuwien/sepm/assignment/individual/mapper/HorseMapper.java:112-131 | with fuel left, null iff no row has the id; a found tree is rooted at that id |
| HorseMapper.EntityToFamilyTreeDto | backend/src/main/java/at/ac/tuwien/sepm/assignment/individual/mapper/HorseMapper.java:112-131 | the scanning, recursing method builds exactly the specified tree |
| HorseMapper.TreeIdsFromList | backend/src/main/java/at/ac/tuwien/sepm/assignment/individual/mapper/HorseMapper.java:112-131 | every id in the tree occurs in the input list |
| HorseMapper.FoundNodeShape | backend/src/main/java/at/ac/tuwien/sepm/assignment/individual/mapper/HorseMapper.java:116-127 | a found node carries the row's id, name and birth date; its subtrees are the trees of its mother and father ids, null when those are null |
| HorseMapper.MissingParentIsNull | backend/src/main/java/at/ac/tuwien/sepm/assignment/individual/mapper/HorseMapper.java:121-127 | a parent id absent from the list gives a null subtree |
| HorseMapper.FuelNeeded | backend/src/main/java/at/ac/tuwien/sepm/assignment/individual/mapper/HorseMapper.java:112-131 | the fuel a tree needs is at most the list length plus one |
| HorseMapper.FuelSuffices | backend/src/main/java/at/ac/tuwien/sepm/assignment/individual/mapper/HorseMapper.java:112-131 | when parents are born before children, any two fuels of at least the needed fuel give the same tree |
| HorseMapper.ParentTreeAgrees | backend/src/main/java/at/ac/tuwien/sepm/assignment/individual/mapper/HorseMapper.java:121-127 | a parent's subtree is the same under both fuels |
| HorseMapper.ListLengthFuelSuffices | backend/src/main/java/at/ac/tuwien/sepm/assignment/individual/mapper/HorseMapper.java:112-131 | list length plus one is always enough fuel |
| Persistence.ChildKeys | backend/src/main/java/at/ac/tuwien/sepm/assignment/individual/persistence/impl/HorseJdbcDao.java:54 | the rows naming the horse as mother or father; none for a null id |
| Persistence.MatchingKeys | backend/src/main/java/at/ac/tuwien/sepm/assignment/individual/persistence/impl/HorseJdbcDao.java:55-62 | the stored rows the WHERE clause keeps |
| Persistence.EmptyFilterKeepsAll | backend/src/main/java/at/ac/tuwien/sepm/assignment/individual/persistence/impl/HorseJdbcDao.java:55-62 | a filter with nothing set keeps every row |
| Persistence.NarrowingFilterShrinks | backend/src/main/java/at/ac/tuwien/sepm/assignment/individual/persistence/impl/HorseJdbcDao.java:55-62 | setting the name filter never adds a row |
| Persistence.ParentKeys | backend/src/main/java/at/ac/tuwien/sepm/assignment/individual/persistence/impl/HorseJdbcDao.java:69-72 | one step of the recursive join stays within the table |
| Persistence.Level | backend/src/main/java/at/ac/tuwien/sepm/assignment/individual/persistence/impl/HorseJdbcDao.java:64-73 | each generation of the recursive query stays within the table |
| Persistence.Within | backend/src/main/java/at/ac/tuwien/sepm/assignment/individual/persistence/impl/HorseJdbcDao.java:64-73 | the generations fetched stay within the table |
| Persistence.LevelHasPath | backend/src/main/java/at/ac/tuwien/sepm/assignment/individual/persistence/impl/HorseJdbcDao.java:64-73 | every horse in generation n+1 is reached from the root by n parent steps |
| Persistence.PathInLevel | backend/src/main/java/at/ac/tuwien/sepm/assignment/individual/persistence/impl/HorseJdbcDao.java:64-73 | conversely, the end of every n-step parent path is in generation n+1 |
| Persistence.WithinIsLevels | backend/src/main/java/at/ac/tuwien/sepm/assignment/individual/persistence/impl/HorseJdbcDao.java:64-73 | the fetched set is exactly the union of the generations below the bound |
| Persistence.WithinGrows | backend/src/main/java/at/ac/tuwien/sepm/assignment/individual/persistence/impl/HorseJdbcDao.java:64-73 | a deeper fetch never loses a horse |
| Persistence.RootFirst | backend/src/main/java/at/ac/tuwien/sepm/assignment/individual/persistence/impl/HorseJdbcDao.java:64-73 | the root is fetched iff it is stored |
| Persistence.NoRootNoAncestors | backend/src/main/java/at/ac/tuwien/sepm/assignment/individual/persistence/impl/HorseJdbcDao.java:186-197 | without the root the query returns nothing at all |
| Persistence.Depth | backend/src/main/java/at/ac/tuwien/sepm/assignment/individual/persistence/impl/HorseJdbcDao.java:64-73 | the root's generation is always fetched; otherwise the bound is the generation count |
| Persistence.HorseJdbcDao.constructor | backend/src/main/java/at/ac/tuwien/sepm/assignment/individual/persistence/impl/HorseJdbcDao.java:79-84 | a table holding the given rows |
| Persistence.HorseJdbcDao.GetById | backend/src/main/java/at/ac/tuwien/sepm/assignment/individual/persistence/impl/HorseJdbcDao.java:93-107 | not found iff no row has the id, with its message; otherwise exactly that row |
| Persistence.HorseJdbcDao.Create | backend/src/main/java/at/ac/tuwien/sepm/assignment/individual/persistence/impl/HorseJdbcDao.java:110-157 | adds one row under a fresh key and changes no other; returns the input's fields, with a null id for key 0 |
| Persistence.HorseJdbcDao.Delete | backend/src/main/java/at/ac/tuwien/sepm/assignment/individual/persistence/impl/HorseJdbcDao.java:160-171 | not found iff the id is absent, with the "Could not delete" message and nothing changed; otherwise removes exactly that row |
| Persistence.HorseJdbcDao.Update | backend/src/main/java/at/ac/tuwien/sepm/assignment/individual/persistence/impl/HorseJdbcDao.java:224-250 | not found iff the id is null or absent, nothing changed; otherwise replaces every field of that row only and returns the new values |
| Persistence.HorseJdbcDao.GetAllChildren | backend/src/main/java/at/ac/tuwien/sepm/assignment/individual/persistence/impl/HorseJdbcDao.java:181-184 | exactly the stored rows naming the horse as mother or father, each once |
| Persistence.HorseJdbcDao.IsParent | backend/src/main/java/at/ac/tuwien/sepm/assignment/individual/persistence/impl/HorseJdbcDao.java:175-178 | true iff the horse has a stored child |
| Persistence.HorseJdbcDao.SearchForHorses | backend/src/main/java/at/ac/tuwien/sepm/assignment/individual/persistence/impl/HorseJdbcDao.java:200-221 | distinct stored rows that match every given filter; all of them without a limit, exactly min(limit, matches) with one |
| Persistence.HorseJdbcDao.RowsOf | backend/src/main/java/at/ac/tuwien/sepm/assignment/individual/persistence/impl/HorseJdbcDao.java:186-188 | the rows under the given keys, each once |
| Persistence.HorseJdbcDao.GetFamilyTree | backend/src/main/java/at/ac/tuwien/sepm/assignment/individual/persistence/impl/HorseJdbcDao.java:186-197 | not found iff the root is absent, also for 0 generations; empty for 0; otherwise exactly the stored ancestors within the generation bound |
| Persistence.TakeAtMost | backend/src/main/java/at/ac/tuwien/sepm/assignment/individual/persistence/impl/HorseJdbcDao.java:63 | a subset of the matches of exactly min(limit, matches) rows, as LIMIT leaves |
| Service.Clamp | backend/src/main/java/at/ac/tuwien/sepm/assignment/individual/service/impl/HorseServiceImpl.java:61-66 | the result lies in [0, 100]: 0 for anything not positive, 100 above 100, unchanged in between |
| Service.ClampIdempotentAndMonotone | backend/src/main/java/at/ac/tuwien/sepm/assignment/individual/service/impl/HorseServiceImpl.java:61-66 | clamping twice is clamping once; a larger request never gets fewer generations |
| Service.GetAllById | backend/src/main/java/at/ac/tuwien/sepm/assignment/individual/service/impl/HorseServiceImpl.java:80-85 | the known owners among the requested ids, unchanged |
| Service.OwnerMapFor | backend/src/main/java/at/ac/tuwien/sepm/assignment/individual/service/impl/HorseServiceImpl.java:159-168 | no map for a null id; fatal (not not-found) iff the owner is unknown; otherwise the one-entry map |
| Service.DetailById | backend/src/main/java/at/ac/tuwien/sepm/assignment/individual/service/impl/HorseServiceImpl.java:112-121 | not found iff absent; other failures are fatal or overflow; a result carries the row's id, name, description, birth date and sex |
| Service.DetailOf | backend/src/main/java/at/ac/tuwien/sepm/assignment/individual/service/impl/HorseServiceImpl.java:116-120 | fails only fatally or by overflow; a result carries the row's id, name, description, birth date and sex |
| Service.ParentMap | backend/src/main/java/at/ac/tuwien/sepm/assignment/individual/service/impl/HorseServiceImpl.java:177-186 | no map for a null id; a parent that is not stored is fatal; otherwise the one-entry map, under the parent's id, of the stored parent's id, name, description, birth date and sex |
| Service.OwnersFetchedSuffice | backend/src/main/java/at/ac/tuwien/sepm/assignment/individual/service/impl/HorseServiceImpl.java:75-85 | when the fetched ids include the row's owner, the batch-fetched owners give the same list view as the owner table |
| Service.MapToListViews | backend/src/main/java/at/ac/tuwien/sepm/assignment/individual/service/impl/HorseServiceImpl.java:87 | each row mapped to its list view one to one and in order; fails, fatally, iff some row's owner is unknown |
| Service.DetailOfKeepsReferences | backend/src/main/java/at/ac/tuwien/sepm/assignment/individual/service/impl/HorseServiceImpl.java:116-120 | a resolved view references exactly the row's owner, mother and father |
| Service.DetailOfOkIgnoresId | backend/src/main/java/at/ac/tuwien/sepm/assignment/individual/service/impl/HorseServiceImpl.java:128-132 | whether a row resolves does not depend on the id it carries, so the view create returns succeeds exactly when getById of the new key does |
| Service.LevelShift | backend/src/main/java/at/ac/tuwien/sepm/assignment/individual/service/impl/HorseServiceImpl.java:177-186 | a parent's ancestors at distance m are its child's at distance m+1 |
| Service.DetailFuelSuffices | backend/src/main/java/at/ac/tuwien/sepm/assignment/individual/service/impl/HorseServiceImpl.java:112-121 | once the ancestry has no generation at the fuel's distance, more fuel changes nothing and nothing overflows |
| Service.ParentMapFuelSuffices | backend/src/main/java/at/ac/tuwien/sepm/assignment/individual/service/impl/HorseServiceImpl.java:177-186 | the same for a parent's map |
| Service.LevelRank | backend/src/main/java/at/ac/tuwien/sepm/assignment/individual/service/impl/HorseServiceImpl.java:177-186 | when parents are born first, each generation up lies strictly earlier in birth order |
| Service.AncestryEnds | backend/src/main/java/at/ac/tuwien/sepm/assignment/individual/service/impl/HorseServiceImpl.java:177-186 | when parents are born first, the ancestry dies out within as many generations as there are rows |
| Service.ServiceFuelSuffices | backend/src/main/java/at/ac/tuwien/sepm/assignment/individual/service/impl/HorseServiceImpl.java:112-121 | when parents are born first, the fuel the service uses gives the unbounded result and never overflows |
| Service.MutualParentsOverflow | backend/src/main/java/at/ac/tuwien/sepm/assignment/individual/service/impl/HorseServiceImpl.java:177-186 | two horses naming each other as mother make the resolution overflow at every fuel |
| Service.CycleAcceptedOnUpdate | backend/src/main/java/at/ac/tuwien/sepm/assignment/individual/service/impl/HorseServiceImpl.java:91-109 | an update naming a horse's own foal as its mother passes every check, and resolving the horse afterwards overflows |
| Service.ChildViewsConflict | backend/src/main/java/at/ac/tuwien/sepm/assignment/individual/service/impl/HorseServiceImpl.java:94-101 | the resolved children views conflict with the new date iff the stored children forbid it |
| Service.TreeWithinFetched | backend/src/main/java/at/ac/tuwien/sepm/assignment/individual/service/impl/HorseServiceImpl.java:67-68 | every node of the tree rebuilt from the fetched rows is a fetched ancestor |
| Service.PathInTree | backend/src/main/java/at/ac/tuwien/sepm/assignment/individual/mapper/HorseMapper.java:115-129 | rebuilding from a list that holds a whole stored ancestor path, with enough fuel, reaches the path's end |
| Service.AncestorInTree | backend/src/main/java/at/ac/tuwien/sepm/assignment/individual/service/HorseService.java:92-101 | with parents born first, one fetched ancestor appears in the rebuilt tree |
| Service.TreeHoldsWithin | backend/src/main/java/at/ac/tuwien/sepm/assignment/individual/service/HorseService.java:92-101 | with parents born first, every ancestor up to the requested generation appears in the tree |
| Service.PathWithin | backend/src/main/java/at/ac/tuwien/sepm/assignment/individual/persistence/impl/HorseJdbcDao.java:64-73 | every horse on an ancestor path shorter than the bound is fetched |
| Service.ListBornBefore | backend/src/main/java/at/ac/tuwien/sepm/assignment/individual/service/impl/HorseServiceImpl.java:67-68 | stored rows whose parents are born first give a list whose parents are born first |
| Service.HorseServiceImpl.constructor | backend/src/main/java/at/ac/tuwien/sepm/assignment/individual/service/impl/HorseServiceImpl.java:39-44 | a service over the given table and owner table |
| Service.HorseServiceImpl.OwnerMapForSingleId | backend/src/main/java/at/ac/tuwien/sepm/assignment/individual/service/impl/HorseServiceImpl.java:159-168 | computes exactly the owner map specified above |
| Service.HorseServiceImpl.ParentMapForSingleId | backend/src/main/java/at/ac/tuwien/sepm/assignment/individual/service/impl/HorseServiceImpl.java:177-186 | computes exactly the parent map specified above |
| Service.HorseServiceImpl.DetailFor | backend/src/main/java/at/ac/tuwien/sepm/assignment/individual/service/impl/HorseServiceImpl.java:116-120 | computes exactly the resolved view of a row |
| Service.HorseServiceImpl.GetByIdWithin | backend/src/main/java/at/ac/tuwien/sepm/assignment/individual/service/impl/HorseServiceImpl.java:112-121 | computes exactly the resolved view by id at the given depth |
| Service.HorseServiceImpl.GetById | backend/src/main/java/at/ac/tuwien/sepm/assignment/individual/service/impl/HorseServiceImpl.java:112-121 | not found iff the horse is absent; a result carries the requested id |
| Service.HorseServiceImpl.GetFamilyTree | backend/src/main/java/at/ac/tuwien/sepm/assignment/individual/service/impl/HorseServiceImpl.java:59-69 | not found iff the root is absent; the rows fetched are exactly the ancestors within the clamped generations; the result is the tree rebuilt from them, rooted at the id (none for generations ≤ 0); its nodes are fetched ancestors, and when parents are born first every fetched ancestor is a node |
| Service.HorseServiceImpl.SearchForHorses | backend/src/main/java/at/ac/tuwien/sepm/assignment/individual/service/impl/HorseServiceImpl.java:72-88 | maps the table's search result one to one and in order; fails, fatally, iff a result's owner is unknown |
| Service.HorseServiceImpl.AllHorses | backend/src/main/java/at/ac/tuwien/sepm/assignment/individual/service/impl/HorseServiceImpl.java:46-56 | every stored horse, once each, mapped to its list view |
| Service.HorseServiceImpl.Create | backend/src/main/java/at/ac/tuwien/sepm/assignment/individual/service/impl/HorseServiceImpl.java:124-133 | a refused horse writes nothing; an accepted one adds exactly one row with the submitted data under the generated key, and the result is that row resolved as getById resolves it: it succeeds exactly when getById of the key does, equals it for a non-zero key, and carries the key as its id (null for key 0) with the submitted fields and references |
| Service.HorseServiceImpl.ValidateAgainstChildren | backend/src/main/java/at/ac/tuwien/sepm/assignment/individual/service/impl/HorseServiceImpl.java:94-102 | passes without children; with children, a stored horse and children that resolve, it passes iff the stored sex is kept and the new date is no later than today and every child's, and a refusal is the relation conflict with exactly the messages that apply; fatal or overflow only when a child does not resolve; not found only for an unstored horse |
| Service.HorseServiceImpl.CheckUpdate | backend/src/main/java/at/ac/tuwien/sepm/assignment/individual/service/impl/HorseServiceImpl.java:93-102 | the checks update makes before writing pass exactly when the data is valid and, for a stored horse with children, the children resolve and allow it; each refusal is the exact validation, conflict or not-found error |
| Service.HorseServiceImpl.Update | backend/src/main/java/at/ac/tuwien/sepm/assignment/individual/service/impl/HorseServiceImpl.java:91-109 | the table changes only when every check passes: validation, a stored horse, and children (if any) that resolve and allow the data; then exactly that row is replaced and the result is what getById of the id returns; valid data for an unstored horse whose children resolve is not found and writes nothing; validation failures and conflicts are the exact verdicts; success returns the submitted fields and references |
| Service.HorseServiceImpl.WriteUpdate | backend/src/main/java/at/ac/tuwien/sepm/assignment/individual/service/impl/HorseServiceImpl.java:103-108 | not found for a null or unstored id, writing nothing; otherwise replaces exactly that row and returns what getById of the id returns |
| Service.HorseServiceImpl.Delete | backend/src/main/java/at/ac/tuwien/sepm/assignment/individual/service/impl/HorseServiceImpl.java:136-139 | exactly the table's delete; not found propagates |

## Left out

- REST endpoints, the frontend, logging, transactions and concurrency are not part of this model.
- The JDBC mechanics are not modelled: statements, key holders, row mapping and the
  "updated == 0" fatal paths of create and delete, which a map cannot reach. The table is a map
  with a key counter.
- The owner service is an owner table. Its `getAllById` is modelled as returning the known
  owners among the requested ids. The fatal "Horse, that is already persisted, refers to
  non-existing owner" catch therefore never fires; the mapper's fatal owner lookup reports
  the missing owner instead.
- A null map handed to the mapper is modelled as the empty map. The mapper never looks in it,
  because the matching id is null.
- `Text.Upper` folds ASCII letters only; Unicode case mapping is not modelled. String length
  counts characters, not UTF-16 code units.
- Persistence.HorseJdbcDao.SearchForHorses: SQL `LIKE` wildcards in filter text are treated
  as plain characters. A negative limit is not modelled. The result order is not stated.
- Persistence.HorseJdbcDao.GetFamilyTree: the result is stated as a set of rows; the
  multiplicity and order of rows produced by the recursive query are not.
- Service.HorseServiceImpl.SearchForHorses: the stream is mapped eagerly; the source maps
  lazily, so its fatal error surfaces when the stream is consumed.
- Service.HorseServiceImpl.GetById: the depth of nested parent lookups is bounded by the number
  of rows plus one. On a cyclic ancestry the model reports `StackOverflow` where the source
  overflows the stack.
- Service.HorseServiceImpl.GetFamilyTree: the tree is rebuilt with fuel of the list length plus
  one. On a cyclic ancestor list the model returns a tree cut off at that depth, where the
  source overflows the stack.
- HorseMapper.EntityToFamilyTreeDto: the same fuel bound; `FuelSuffices` shows it is
  exact when parents are born before their children.
- Dto.HorseDetailDto.MotherId, Dto.HorseDetailDto.FatherId, Dto.HorseCreateDto.MotherId,
  Dto.HorseCreateDto.FatherId: not an if-and-only-if with the parent being null, because a
  present parent summary may itself carry a null id.
- The parent rules require a parent's birth date when the child's is given, and the update
  entry points require it too (`ParentDatesKnown`). The source dereferences those dates and
  would fail on the null date.
- `create` and `update` of the table require a birth date and a sex. Validation guarantees
  both before the service writes.
- Database schema constraints (foreign keys, cascades) are not part of the source and are not
  modelled. Deleting a horse that other rows name as a parent removes exactly its row.
- OwnerValidator.CheckEmail: the e-mail block is a separate method, for the verifier only;
  it is the same checks in the same order.
