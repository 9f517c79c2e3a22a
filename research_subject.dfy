/**
 * `Subject` of the research package: a study participant with a validated
 * nine-digit id, optional personal details and the typed data slots
 * (`measurements`, `pbr`, `cantab`, `neo_ffi`) that loaders fill in.
 */
module ResearchSubject {
  import opened Wrappers
  import opened Text
  import opened SubjectData
  import opened ResearchPbr

  /** `datetime.date`, as far as the model needs it. */
  datatype Date = Date(year: nat, month: nat, day: nat)
  {
    predicate Valid() { 1 <= year <= 9999 && 1 <= month <= 12 && 1 <= day <= 31 }
  }

  /** A value of `to_dict`: text, a date, or `None`. */
  datatype Value = StrValue(s: string) | DateValue(d: Date) | NoneValue

  function StrOrNone(o: Option<string>): (v: Value)
    ensures o.None? <==> v.NoneValue?
  {
    if o.Some? then StrValue(o.value) else NoneValue
  }

  /** `f'{value}'` of an optional string: `None` prints as "None". */
  function TextOf(o: Option<string>): string
  {
    if o.Some? then o.value else "None"
  }

  class Subject {
    var id: string
    var nameId: Option<string>
    var sex: Option<string>
    var dateOfBirth: Option<Date>
    var dominantHand: Option<string>
    var gender: Option<string>
    /** The attributes `add_data` sets, by name. */
    var slots: map<string, Datum<Pbr>>

    predicate Valid()
      reads this
    {
      && ValidId(id)
      && (dateOfBirth.Some? ==> dateOfBirth.value.Valid())
      && WellTyped(slots)
      && ("pbr" in slots ==> slots["pbr"].pbr.Valid())
    }

    /** `__init__` with a valid id; `Create` covers the invalid one. */
    constructor (id: string, nameId: Option<string>, sex: Option<string>, dateOfBirth: Option<Date>,
                 dominantHand: Option<string>, gender: Option<string>)
      requires ValidId(id) && (dateOfBirth.Some? ==> dateOfBirth.value.Valid())
      ensures Valid()
      ensures this.id == id && this.nameId == nameId && this.sex == sex && this.dateOfBirth == dateOfBirth
      ensures this.dominantHand == dominantHand && this.gender == gender && slots == map[]
    {
      this.id := id;
      this.nameId := nameId;
      this.sex := sex;
      this.dateOfBirth := dateOfBirth;
      this.dominantHand := dominantHand;
      this.gender := gender;
      slots := map[];
    }

    /** `Subject(...)`: the id setter runs first and raises `ValueError` on an invalid id. */
    static method Create(id: string, nameId: Option<string>, sex: Option<string>, dateOfBirth: Option<Date>,
                         dominantHand: Option<string>, gender: Option<string>) returns (r: Result<Subject>)
      requires dateOfBirth.Some? ==> dateOfBirth.value.Valid()
      ensures r.Ok? <==> ValidId(id)
      ensures r.Err? ==> r.exception == ValueError
      ensures r.Ok? ==> (fresh(r.value) && r.value.Valid() && r.value.id == id && r.value.nameId == nameId
        && r.value.sex == sex && r.value.dateOfBirth == dateOfBirth && r.value.dominantHand == dominantHand
        && r.value.gender == gender && r.value.slots == map[])
    {
      if !ValidId(id) {
        return Err(ValueError);
      }
      var s := new Subject(id, nameId, sex, dateOfBirth, dominantHand, gender);
      r := Ok(s);
    }

    /** The `id` setter: a valid id is stored, an invalid one raises `ValueError` and keeps the old one. */
    method SetId(value: string) returns (err: Option<Exception>)
      requires Valid()
      modifies this
      ensures Valid()
      ensures ValidId(value) ==> err.None? && id == value
      ensures !ValidId(value) ==> err == Some(ValueError) && id == old(id)
      ensures nameId == old(nameId) && sex == old(sex) && dateOfBirth == old(dateOfBirth)
      ensures dominantHand == old(dominantHand) && gender == old(gender) && slots == old(slots)
    {
      if ValidId(value) {
        id := value;
        err := None;
      } else {
        err := Some(ValueError);
      }
    }

    /** `add_data(attr, data)`: the slot is set only for a known name and a value of its class. */
    method AddData(attr: string, d: Datum<Pbr>)
      requires Valid() && (d.PbrData? ==> d.pbr.Valid())
      modifies this
      ensures Valid()
      ensures slots == AddedSlots(old(slots), attr, d)
      ensures id == old(id) && nameId == old(nameId) && sex == old(sex) && dateOfBirth == old(dateOfBirth)
      ensures dominantHand == old(dominantHand) && gender == old(gender)
    {
      if ExpectedKind(attr).Some? {
        if KindOf(d) == ExpectedKind(attr) {
          slots := slots[attr := d];
        }
      }
    }

    /** `hasattr(subject, 'pbr')`. */
    predicate HasPbr()
      reads this
    {
      "pbr" in slots && slots["pbr"].PbrData?
    }

    /** `__eq__`: subjects are equal exactly when their ids are; nothing else is compared. */
    predicate Equals(other: Subject)
      reads this, other
    {
      id == other.id
    }

    /** `to_dict`: exactly the six personal attributes, with their stored values. */
    function ToDict(): (r: map<string, Value>)
      reads this
      ensures r.Keys == {"id", "name_id", "sex", "date_of_birth", "dominant_hand", "gender"}
      ensures r["id"] == StrValue(id) && r["name_id"] == StrOrNone(nameId) && r["sex"] == StrOrNone(sex)
      ensures r["date_of_birth"] == (if dateOfBirth.Some? then DateValue(dateOfBirth.value) else NoneValue)
      ensures r["dominant_hand"] == StrOrNone(dominantHand) && r["gender"] == StrOrNone(gender)
    {
      map[
        "id" := StrValue(id),
        "name_id" := StrOrNone(nameId),
        "sex" := StrOrNone(sex),
        "date_of_birth" := (if dateOfBirth.Some? then DateValue(dateOfBirth.value) else NoneValue),
        "dominant_hand" := StrOrNone(dominantHand),
        "gender" := StrOrNone(gender)]
    }

    /** `__str__`: `name_id/id`. */
    function ToString(): string
      reads this
    {
      TextOf(nameId) + "/" + id
    }
  }

  /** A name without '/' and the id can be read back from the printed subject. */
  lemma ToStringSplits(s: Subject)
    requires s.Valid() && '/' !in TextOf(s.nameId)
    ensures Split(s.ToString(), '/') == [TextOf(s.nameId), s.id]
  {
    assert '/' !in s.id by {
      forall k | 0 <= k < |s.id| ensures s.id[k] != '/' { assert IsDigit(s.id[k]); }
    }
    SplitAround(TextOf(s.nameId), '/', s.id);
    SplitNoSep(TextOf(s.nameId), '/');
    SplitNoSep(s.id, '/');
  }
}
