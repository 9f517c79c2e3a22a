/**
 * What the two `Subject` classes (research package and helpers package)
 * share: the nine-digit id rule and the table of typed data slots that
 * `add_data` fills. A slot is set only when its name is in the table and the
 * value has that slot's type; anything else is ignored without an error.
 */
module SubjectData {
  import opened Wrappers
  import opened Text
  import opened Cantab

  /** `_id_length`. */
  const ID_LENGTH: nat := 9

  /** `validate_id`: only digits, and exactly nine of them. */
  predicate ValidId(v: string)
  {
    AllDigits(v) && |v| == ID_LENGTH
  }

  /** The classes of the slot table. */
  datatype Kind = MeasurementsKind | PbrKind | CantabKind | NeoFfiKind

  /**
   * A value handed to `add_data`. Measurements and NEO-FFI results are pandas
   * wrappers and are carried as bare tags; `P` is the matrix class of the
   * package; anything of another class is `Foreign`.
   */
  datatype Datum<P> = Measurements | PbrData(pbr: P) | CantabData(cantab: CantabResults) | NeoFfi | Foreign

  /** The class of a value, when it is one the table knows. */
  function KindOf<P>(d: Datum<P>): (k: Option<Kind>)
    ensures k.None? <==> d.Foreign?
  {
    match d
    case Measurements => Some(MeasurementsKind)
    case PbrData(_) => Some(PbrKind)
    case CantabData(_) => Some(CantabKind)
    case NeoFfi => Some(NeoFfiKind)
    case Foreign => None
  }

  /** `additional_data_classes.get(attr)`. */
  function ExpectedKind(attr: string): (k: Option<Kind>)
    ensures k.Some? <==> attr in {"measurements", "pbr", "cantab", "neo_ffi"}
  {
    if attr == "measurements" then Some(MeasurementsKind)
    else if attr == "pbr" then Some(PbrKind)
    else if attr == "cantab" then Some(CantabKind)
    else if attr == "neo_ffi" then Some(NeoFfiKind)
    else None
  }

  /** Every filled slot holds a value of its own class. */
  predicate WellTyped<P>(slots: map<string, Datum<P>>)
  {
    forall a :: a in slots ==> KindOf(slots[a]).Some? && ExpectedKind(a) == KindOf(slots[a])
  }

  /** The slots after `add_data(attr, d)`. */
  function AddedSlots<P>(slots: map<string, Datum<P>>, attr: string, d: Datum<P>): (r: map<string, Datum<P>>)
    ensures WellTyped(slots) ==> WellTyped(r)
  {
    if ExpectedKind(attr).Some? && KindOf(d) == ExpectedKind(attr) then slots[attr := d] else slots
  }

  /** An unknown name or a value of the wrong class changes nothing. */
  lemma AddedSlotsIgnores<P>(slots: map<string, Datum<P>>, attr: string, d: Datum<P>)
    requires ExpectedKind(attr).None? || KindOf(d) != ExpectedKind(attr)
    ensures AddedSlots(slots, attr, d) == slots
  {
  }

  /** A value of the slot's class lands in that slot, and only there. */
  lemma AddedSlotsSets<P>(slots: map<string, Datum<P>>, attr: string, d: Datum<P>)
    requires ExpectedKind(attr).Some? && KindOf(d) == ExpectedKind(attr)
    ensures var r := AddedSlots(slots, attr, d);
      && attr in r && r[attr] == d
      && r.Keys == slots.Keys + {attr}
      && forall a :: a in slots && a != attr ==> r[a] == slots[a]
  {
  }

  /** Adding anything leaves every other slot as it was. */
  lemma AddedSlotsOthers<P>(slots: map<string, Datum<P>>, attr: string, d: Datum<P>, other: string)
    requires other != attr
    ensures other in AddedSlots(slots, attr, d) <==> other in slots
    ensures other in slots ==> AddedSlots(slots, attr, d)[other] == slots[other]
  {
  }
}
