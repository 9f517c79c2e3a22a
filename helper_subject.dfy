/**
 * `Subject` of the helpers package: the same id rule and data slots as the
 * research subject, plus the directory its results live in, fixed when the
 * subject is made.
 */
module HelperSubject {
  import opened Wrappers
  import opened Text
  import opened FileSystem
  import opened SubjectData
  import LayersPbr

  /** The `date_of_birth` attribute, kept as given. */
  datatype Date = Date(year: nat, month: nat, day: nat)

  class Subject {
    var id: string
    var nameId: Option<string>
    var sex: Option<string>
    var dateOfBirth: Option<Date>
    var dominantHand: Option<string>
    var gender: Option<string>
    /** `os.path.join(results_dir, id)`, computed once by `__init__`. */
    var resultsDir: string
    var slots: map<string, Datum<LayersPbr.ProbabilityByRegionMatrix>>

    predicate Valid()
      reads this
    {
      ValidId(id) && WellTyped(slots)
    }

    /** `__init__` with a valid id; `Create` covers the invalid one. */
    constructor (resultsRoot: string, id: string, nameId: Option<string>, sex: Option<string>, dateOfBirth: Option<Date>,
                 dominantHand: Option<string>, gender: Option<string>)
      requires ValidId(id)
      ensures Valid()
      ensures this.id == id && this.nameId == nameId && this.sex == sex && this.dateOfBirth == dateOfBirth
      ensures this.dominantHand == dominantHand && this.gender == gender && slots == map[]
      ensures resultsDir == PathJoin(resultsRoot, id)
    {
      this.id := id;
      this.nameId := nameId;
      this.sex := sex;
      this.dateOfBirth := dateOfBirth;
      this.dominantHand := dominantHand;
      this.gender := gender;
      resultsDir := PathJoin(resultsRoot, id);
      slots := map[];
    }

    /** `Subject(...)`: an invalid id raises `ValueError` and no subject is made. */
    static method Create(resultsRoot: string, id: string, nameId: Option<string>, sex: Option<string>,
                         dateOfBirth: Option<Date>, dominantHand: Option<string>, gender: Option<string>)
      returns (r: Result<Subject>)
      ensures r.Ok? <==> ValidId(id)
      ensures r.Err? ==> r.exception == ValueError
      ensures r.Ok? ==> (fresh(r.value) && r.value.Valid() && r.value.id == id && r.value.nameId == nameId
        && r.value.sex == sex && r.value.dateOfBirth == dateOfBirth && r.value.dominantHand == dominantHand
        && r.value.gender == gender && r.value.slots == map[] && r.value.resultsDir == PathJoin(resultsRoot, id))
    {
      if !ValidId(id) {
        return Err(ValueError);
      }
      var s := new Subject(resultsRoot, id, nameId, sex, dateOfBirth, dominantHand, gender);
      r := Ok(s);
    }

    /**
     * The `id` setter: a valid id is stored, an invalid one raises `ValueError`.
     * The results directory keeps the id it was made with.
     */
    method SetId(value: string) returns (err: Option<Exception>)
      requires Valid()
      modifies this
      ensures Valid()
      ensures ValidId(value) ==> err.None? && id == value
      ensures !ValidId(value) ==> err == Some(ValueError) && id == old(id)
      ensures resultsDir == old(resultsDir) && slots == old(slots)
      ensures nameId == old(nameId) && sex == old(sex) && dateOfBirth == old(dateOfBirth)
      ensures dominantHand == old(dominantHand) && gender == old(gender)
    {
      if ValidId(value) {
        id := value;
        err := None;
      } else {
        err := Some(ValueError);
      }
    }

    /** `has_results_dir`: `os.path.isdir(results_dir)`. */
    predicate HasResultsDir(disk: Disk): (b: bool)
      reads this
      ensures b ==> disk.Exists(resultsDir)
    {
      disk.IsDir(resultsDir)
    }

    /** `add_data(attr, data)`: the slot is set only for a known name and a value of its class. */
    method AddData(attr: string, d: Datum<LayersPbr.ProbabilityByRegionMatrix>)
      requires Valid()
      modifies this
      ensures Valid()
      ensures slots == AddedSlots(old(slots), attr, d)
      ensures id == old(id) && resultsDir == old(resultsDir) && nameId == old(nameId) && sex == old(sex)
      ensures dateOfBirth == old(dateOfBirth) && dominantHand == old(dominantHand) && gender == old(gender)
    {
      if ExpectedKind(attr).Some? {
        if KindOf(d) == ExpectedKind(attr) {
          slots := slots[attr := d];
        }
      }
    }

    /** `__eq__`: by id only. */
    predicate Equals(other: Subject)
      reads this, other
    {
      id == other.id
    }
  }

  /** `np.save` writes files only: whether a subject has its results directory is unchanged. */
  lemma SavingKeepsResultsDir(s: Subject, disk: Disk, p: string, c: Content)
    ensures s.HasResultsDir(Save(disk, p, c)) == s.HasResultsDir(disk)
  {
  }

  /** The results directory of a fresh subject is a direct child of the results root named by its id. */
  lemma ResultsDirNamesSubject(resultsRoot: string, id: string)
    requires ValidId(id)
    ensures Basename(PathJoin(resultsRoot, id)) == id
  {
    assert '/' !in id by {
      forall k | 0 <= k < |id| ensures id[k] != '/' { assert IsDigit(id[k]); }
    }
    BasenameOfJoin(resultsRoot, id);
  }
}
