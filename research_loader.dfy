/**
 * `DataLoader` of the research package: the registry of subjects, to which
 * each subject's cortical-layers matrix and CANTAB results are attached.
 * A matrix whose subject id is not registered stops the loading with
 * `ValueError`; the CANTAB row is looked up with the date of birth printed as
 * `dd/mm/yy`.
 */
module ResearchLoader {
  import opened Wrappers
  import opened Text
  import opened SubjectData
  import opened ResearchPbr
  import opened ResearchSubject
  import opened RowBySession
  import opened Cantab

  // ------------------------------------------------------------ lookups

  /** The position of the first id equal to `id`. */
  function First(ids: seq<string>, id: string): (r: Option<nat>)
    ensures r.Some? ==> r.value < |ids| && ids[r.value] == id && forall k :: 0 <= k < r.value ==> ids[k] != id
    ensures r.None? ==> forall k :: 0 <= k < |ids| ==> ids[k] != id
  {
    if ids == [] then None
    else if ids[0] == id then Some(0)
    else
      match First(ids[1..], id)
      case None => None
      case Some(k) => Some(k + 1)
  }

  /** The ids of the subjects, in registry order. */
  function Ids(ss: seq<Subject>): (ids: seq<string>)
    reads ss
    ensures |ids| == |ss| && forall k :: 0 <= k < |ss| ==> ids[k] == ss[k].id
  {
    if ss == [] then [] else [ss[0].id] + Ids(ss[1..])
  }

  /** The position of the first matrix whose subject is not registered, or the count when there is none. */
  function FirstUnknown(ids: seq<string>, pbrs: seq<Pbr>): (j: nat)
    ensures j <= |pbrs|
    ensures forall q :: 0 <= q < j ==> First(ids, pbrs[q].subjectId).Some?
    ensures j < |pbrs| ==> First(ids, pbrs[j].subjectId).None?
  {
    if pbrs == [] then 0
    else if First(ids, pbrs[0].subjectId).None? then 0
    else 1 + FirstUnknown(ids, pbrs[1..])
  }

  /** Where the last matrix of `id` sits in `pbrs`, if the id has one. */
  function LastIndex(pbrs: seq<Pbr>, id: string): (r: Option<nat>)
    ensures r.Some? ==> r.value < |pbrs| && pbrs[r.value].subjectId == id
    ensures r.Some? ==> forall p :: r.value < p < |pbrs| ==> pbrs[p].subjectId != id
    ensures r.None? ==> forall q :: 0 <= q < |pbrs| ==> pbrs[q].subjectId != id
  {
    if pbrs == [] then None
    else
      var n := |pbrs| - 1;
      if pbrs[n].subjectId == id then Some(n)
      else
        var r := LastIndex(pbrs[..n], id);
        assert forall q :: 0 <= q < n ==> pbrs[..n][q] == pbrs[q];
        r
  }

  /** The matrix that ends up in the `pbr` slot of the subject with `id`: the last one of that id. */
  function LastFor(pbrs: seq<Pbr>, id: string): (r: Option<Pbr>)
    ensures r.Some? <==> exists q :: 0 <= q < |pbrs| && pbrs[q].subjectId == id
    ensures r.Some? ==> r.value.subjectId == id
  {
    match LastIndex(pbrs, id)
    case Some(q) => Some(pbrs[q])
    case None => None
  }

  /** One more matrix: it wins if it is of the id, otherwise the earlier answer stands. */
  lemma LastForAppend(pbrs: seq<Pbr>, p: Pbr, id: string)
    ensures LastFor(pbrs + [p], id) == if p.subjectId == id then Some(p) else LastFor(pbrs, id)
  {
    assert (pbrs + [p])[..|pbrs|] == pbrs;
  }

  /** `date.strftime('%d/%m/%y')`. */
  function FormatDate(d: Date): (r: string)
    requires d.Valid()
    ensures |r| == 8 && r[2] == '/' && r[5] == '/'
    ensures forall k :: 0 <= k < 8 && k != 2 && k != 5 ==> IsDigit(r[k])
  {
    Two(d.day) + "/" + Two(d.month) + "/" + Two(d.year % 100)
  }

  /** A number below 100 as two digits, zero-padded. */
  function Two(n: nat): (r: string)
    requires n < 100
    ensures |r| == 2 && IsDigit(r[0]) && IsDigit(r[1])
  {
    var s := NatToString(n);
    ShortNumber(n);
    ZFill(s, 2)
  }

  lemma ShortNumber(n: nat)
    requires n < 100
    ensures |NatToString(n)| <= 2
  {
    if n >= 10 {
      SmallNatToString(n / 10);
    }
  }

  // ---------------------------------------------------------- the loader

  /** A subject's id, name id, date of birth and slots at one moment. */
  datatype Snapshot = Snapshot(id: string, nameId: Option<string>, dateOfBirth: Option<Date>,
                               slots: map<string, Datum<Pbr>>)

  function Snap(s: Subject): (r: Snapshot)
    reads s
    ensures r.id == s.id && r.nameId == s.nameId && r.dateOfBirth == s.dateOfBirth && r.slots == s.slots
  {
    Snapshot(s.id, s.nameId, s.dateOfBirth, s.slots)
  }

  function Snaps(ss: seq<Subject>): (r: seq<Snapshot>)
    reads ss
    ensures |r| == |ss| && forall k :: 0 <= k < |ss| ==> r[k] == Snap(ss[k])
  {
    if ss == [] then [] else [Snap(ss[0])] + Snaps(ss[1..])
  }

  /** The ids of the snapshots, in order. */
  function IdsOf(was: seq<Snapshot>): (ids: seq<string>)
    ensures |ids| == |was| && forall k :: 0 <= k < |was| ==> ids[k] == was[k].id
  {
    if was == [] then [] else [was[0].id] + IdsOf(was[1..])
  }

  /** Whether subject `s` kept its personal data and its validity, and now holds exactly `slots`. */
  predicate Became(s: Subject, was: Snapshot, slots: map<string, Datum<Pbr>>)
    reads s
  {
    s.Valid() && s.id == was.id && s.nameId == was.nameId && s.dateOfBirth == was.dateOfBirth && s.slots == slots
  }

  /**
   * After the first matrices `prefix`: every subject kept its personal data,
   * and the owner of an id holds the last of that id's matrices in its `pbr` slot.
   */
  predicate Attached(ss: seq<Subject>, was: seq<Snapshot>, prefix: seq<Pbr>)
    requires |was| == |ss|
    reads ss
  {
    forall k :: 0 <= k < |ss| ==>
      Became(ss[k], was[k], PbrSlots(was[k].slots, Owner(ss, IdsOf(was), k), LastFor(prefix, was[k].id)))
  }

  /**
   * After the first `n` listings were served: every subject kept its personal
   * data, and the served ones hold their lookup in their `cantab` slot.
   */
  predicate Served(ss: seq<Subject>, was: seq<Snapshot>, looks: seq<Datum<Pbr>>, n: nat)
    requires |was| == |ss| && |looks| == |ss| && n <= |ss|
    reads ss
  {
    forall q :: 0 <= q < |ss| ==> Became(ss[q], was[q], ServedSlots(was[q].slots, looks[q], Listed(ss, ss[q], n)))
  }

  class DataLoader {
    /** The registered subjects; the loader never replaces the list, only fills the subjects in it. */
    const subjects: seq<Subject>
    /** The CANTAB table, searched row by row. */
    const cantab: RowBySessionResults

    predicate Valid()
      reads subjects
    {
      forall k :: 0 <= k < |subjects| ==> subjects[k].Valid()
    }

    /** Only stores the collaborators; `Create` also attaches the results. */
    constructor Init(subjects: seq<Subject>, cantab: RowBySessionResults)
      ensures this.subjects == subjects && this.cantab == cantab
    {
      this.subjects := subjects;
      this.cantab := cantab;
    }

    /** `get_subject_by_id(id)`: the first registered subject with that id, or `None`. */
    function GetSubjectById(id: string): (r: Option<Subject>)
      reads subjects
      ensures r.Some? ==> r.value in subjects && r.value.id == id
      ensures r.Some? <==> First(Ids(subjects), id).Some?
      ensures r.Some? ==> r.value == subjects[First(Ids(subjects), id).value]
      ensures r.None? <==> forall k :: 0 <= k < |subjects| ==> subjects[k].id != id
    {
      match First(Ids(subjects), id)
      case None => None
      case Some(k) => Some(subjects[k])
    }

    /**
     * `add_cortical_layers_results_to_subjects`: every matrix, in order, goes
     * into the `pbr` slot of the subject `get_subject_by_id` finds for it, so
     * the last one of an id wins; the first matrix of an unknown id raises
     * `ValueError`, after the earlier ones were attached. Nothing but `pbr`
     * slots changes.
     */
    method AddCorticalLayersResults(pbrs: seq<Pbr>) returns (err: Option<Exception>)
      requires Valid() && forall j :: 0 <= j < |pbrs| ==> pbrs[j].Valid()
      modifies subjects
      ensures Valid()
      ensures err.Some? <==> FirstUnknown(IdsOf(old(Snaps(subjects))), pbrs) < |pbrs|
      ensures err.Some? ==> err.value == ValueError
      ensures var was := old(Snaps(subjects));
        Attached(subjects, was, pbrs[..FirstUnknown(IdsOf(was), pbrs)])
    {
      ghost var was := Snaps(subjects);
      ghost var ids := IdsOf(was);
      var j := 0;
      assert pbrs[..0] == [];
      while j < |pbrs|
        invariant 0 <= j <= |pbrs| && |was| == |subjects| && |ids| == |subjects|
        invariant j <= FirstUnknown(ids, pbrs)
        invariant Attached(subjects, was, pbrs[..j])
      {
        var pbr := pbrs[j];
        assert Ids(subjects) == ids by { SameIds(subjects, was); }
        var found := GetSubjectById(pbr.subjectId);
        if found.None? {
          StopsAt(ids, pbrs, j);
          return Some(ValueError);
        }
        ghost var o := First(ids, pbr.subjectId).value;
        KnownNext(ids, pbrs, j);
        AttachTo(found.value, o, pbr, was, ids, pbrs[..j]);
        TakeOneMore(pbrs, j);
        j := j + 1;
      }
      assert FirstUnknown(ids, pbrs) == j;
      err := None;
    }

    /**
     * `add_cantab_results_to_subjects`: every subject, in order, gets the
     * CANTAB lookup for its name id and printed date of birth in its `cantab`
     * slot; the first subject whose turn raises (see `Failure`) stops the
     * pass, after the earlier ones were served. A subject listed twice is one
     * object and is served once per listing, with the same value. Nothing
     * but `cantab` slots changes.
     */
    method AddCantabResults() returns (err: Option<Exception>)
      requires Valid()
      modifies subjects
      ensures Valid()
      ensures var was := old(Snaps(subjects));
        err.Some? <==> FirstFailing(cantab, was) < |subjects|
      ensures var was := old(Snaps(subjects));
        err.Some? ==> err == Failure(cantab, was[FirstFailing(cantab, was)])
      ensures var was := old(Snaps(subjects));
        Served(subjects, was, Lookups(cantab, was), FirstFailing(cantab, was))
    {
      ghost var was := Snaps(subjects);
      ghost var stop := FirstFailing(cantab, was);
      ghost var looks := Lookups(cantab, was);
      var k := 0;
      while k < |subjects|
        invariant 0 <= k <= |subjects| && k <= stop && |was| == |subjects| && |looks| == |subjects|
        invariant Served(subjects, was, looks, k)
      {
        var s := subjects[k];
        assert Became(s, was[k], ServedSlots(was[k].slots, looks[k], Listed(subjects, s, k)));
        var failure, results := Turn(s);
        assert failure == Failure(cantab, was[k]);
        if failure.Some? {
          FailingHere(cantab, was, k);
          assert Served(subjects, was, looks, stop);
          return failure;
        }
        NotFailingYet(cantab, was, k);
        ServeAt(k, results, was, looks);
        k := k + 1;
      }
      assert k == stop;
      assert Served(subjects, was, looks, stop);
      err := None;
    }

    /**
     * One subject's turn up to `add_data`: the date is printed, then the
     * table is asked; the exception either step raises, or the results.
     */
    method Turn(s: Subject) returns (failure: Option<Exception>, results: CantabResults)
      requires s.Valid()
      ensures failure == Failure(cantab, Snap(s))
      ensures failure.None? ==>
        s.nameId.Some? && s.dateOfBirth.Some? &&
        cantab.SubjectResults(s.nameId.value, FormatDate(s.dateOfBirth.value)) == Ok(results)
    {
      results := CantabResults(None);
      if s.dateOfBirth.None? {
        return Some(AttributeError), results;
      }
      var dob := FormatDate(s.dateOfBirth.value);
      var nameError := cantab.NameColumnError();
      if nameError.Some? {
        return nameError, results;
      }
      if s.nameId.None? {
        return Some(AttributeError), results;
      }
      var r := cantab.SubjectResults(s.nameId.value, dob);
      if r.Err? {
        return Some(r.exception), results;
      }
      failure, results := None, r.value;
    }

    /** `subject.add_data('pbr', pbr)` on `s`, the subject found for the matrix's id, at position `o`. */
    method AttachTo(s: Subject, ghost o: nat, pbr: Pbr, ghost was: seq<Snapshot>, ghost ids: seq<string>, ghost prefix: seq<Pbr>)
      requires |was| == |subjects| && ids == IdsOf(was) && o < |subjects| && s == subjects[o] && pbr.Valid()
      requires First(ids, pbr.subjectId) == Some(o)
      requires Attached(subjects, was, prefix)
      modifies s
      ensures Attached(subjects, was, prefix + [pbr])
    {
      s.AddData("pbr", PbrData(pbr));
      forall k | 0 <= k < |subjects|
        ensures Became(subjects[k], was[k], PbrSlots(was[k].slots, Owner(subjects, ids, k), LastFor(prefix + [pbr], was[k].id)))
      {
        var owner := Owner(subjects, ids, k);
        assert old(Became(subjects[k], was[k], PbrSlots(was[k].slots, owner, LastFor(prefix, was[k].id))));
        if subjects[k] == s {
          assert was[k].id == pbr.subjectId;
          PbrStep(was[k].slots, old(s.slots), s.slots, owner, was[k].id, prefix, pbr, true);
        } else {
          assert was[k].id == pbr.subjectId ==> !owner;
          PbrStep(was[k].slots, subjects[k].slots, subjects[k].slots, owner, was[k].id, prefix, pbr, false);
        }
      }
    }

    /**
     * `subject.add_data('cantab', results)` on `subjects[k]`, with the lookup
     * for its name id and its date of birth printed as `dd/mm/yy`.
     */
    method ServeAt(k: nat, results: CantabResults, ghost was: seq<Snapshot>, ghost looks: seq<Datum<Pbr>>)
      requires |was| == |subjects| && k < |subjects| && looks == Lookups(cantab, was)
      requires subjects[k].nameId.Some? && subjects[k].dateOfBirth.Some? && subjects[k].dateOfBirth.value.Valid()
      requires cantab.SubjectResults(subjects[k].nameId.value, FormatDate(subjects[k].dateOfBirth.value)) == Ok(results)
      requires Served(subjects, was, looks, k)
      modifies subjects[k]
      ensures Served(subjects, was, looks, k + 1)
    {
      var s := subjects[k];
      assert Became(s, was[k], ServedSlots(was[k].slots, looks[k], Listed(subjects, s, k)));
      s.AddData("cantab", CantabData(results));
      forall q | 0 <= q < |subjects|
        ensures Became(subjects[q], was[q], ServedSlots(was[q].slots, looks[q], Listed(subjects, subjects[q], k + 1)))
      {
        assert old(Became(subjects[q], was[q], ServedSlots(was[q].slots, looks[q], Listed(subjects, subjects[q], k))));
        if subjects[q] == s {
          LookupsAt(cantab, was, q);
          assert looks[q] == CantabData(results);
          ServeOne(was[q].slots, old(s.slots), s.slots, looks[q], Listed(subjects, s, k));
        } else {
          assert Listed(subjects, subjects[q], k + 1) == Listed(subjects, subjects[q], k);
        }
      }
    }

    /**
     * `DataLoader(subjects, cortical_layers, cantab)`: the matrices are
     * attached, then the CANTAB results; either step can raise.
     */
    static method Create(subjects: seq<Subject>, pbrs: seq<Pbr>, cantab: RowBySessionResults) returns (r: Result<DataLoader>)
      requires forall k :: 0 <= k < |subjects| ==> subjects[k].Valid()
      requires forall j :: 0 <= j < |pbrs| ==> pbrs[j].Valid()
      modifies subjects
      ensures var was := old(Snaps(subjects));
        && (r.Ok? <==> FirstUnknown(IdsOf(was), pbrs) == |pbrs| && FirstFailing(cantab, was) == |subjects|)
        && (r.Err? && FirstUnknown(IdsOf(was), pbrs) < |pbrs| ==> r.exception == ValueError)
        && (r.Err? && FirstUnknown(IdsOf(was), pbrs) == |pbrs| ==>
              Some(r.exception) == Failure(cantab, was[FirstFailing(cantab, was)]))
      ensures r.Ok? ==> fresh(r.value) && r.value.subjects == subjects && r.value.cantab == cantab && r.value.Valid()
    {
      var l := new DataLoader.Init(subjects, cantab);
      ghost var was := Snaps(subjects);
      assert was == old(Snaps(subjects));
      ghost var stop := FirstUnknown(IdsOf(was), pbrs);
      var err := l.AddCorticalLayersResults(pbrs);
      if err.Some? {
        assert stop < |pbrs|;
        return Err(err.value);
      }
      assert stop == |pbrs|;
      AttachedKeepsFailing(cantab, subjects, was, pbrs[..stop]);
      ghost var mid := Snaps(subjects);
      assert FirstFailing(cantab, mid) == FirstFailing(cantab, was);
      err := l.AddCantabResults();
      if err.Some? {
        assert FirstFailing(cantab, was) < |subjects|;
        return Err(err.value);
      }
      assert FirstFailing(cantab, was) == |subjects|;
      r := Ok(l);
    }
  }

  /** Attaching matrices leaves where the CANTAB pass stops, and why, as it was. */
  lemma AttachedKeepsFailing(table: RowBySessionResults, ss: seq<Subject>, was: seq<Snapshot>, prefix: seq<Pbr>)
    requires |was| == |ss| && Attached(ss, was, prefix)
    ensures FirstFailing(table, Snaps(ss)) == FirstFailing(table, was)
    ensures FirstFailing(table, was) < |was| ==>
      Failure(table, Snaps(ss)[FirstFailing(table, was)]) == Failure(table, was[FirstFailing(table, was)])
  {
    var now := Snaps(ss);
    forall k | 0 <= k < |ss| ensures now[k].nameId == was[k].nameId && now[k].dateOfBirth == was[k].dateOfBirth {
      assert Became(ss[k], was[k], PbrSlots(was[k].slots, Owner(ss, IdsOf(was), k), LastFor(prefix, was[k].id)));
    }
    SameFailing(table, now, was);
    if FirstFailing(table, was) < |was| {
      var q := FirstFailing(table, was);
      assert now[q].nameId == was[q].nameId && now[q].dateOfBirth == was[q].dateOfBirth;
    }
  }

  /** Subjects that kept the ids of the snapshots have the snapshots' ids. */
  lemma SameIds(ss: seq<Subject>, was: seq<Snapshot>)
    requires |was| == |ss| && forall k :: 0 <= k < |ss| ==> ss[k].id == was[k].id
    ensures Ids(ss) == IdsOf(was)
  {
  }

  /** Whether subject k is the one `get_subject_by_id` finds for its id, in a registry with these ids. */
  predicate Owner(ss: seq<Subject>, ids: seq<string>, k: nat)
    requires |ids| == |ss| && k < |ss|
  {
    First(ids, ids[k]).Some? && ss[First(ids, ids[k]).value] == ss[k]
  }

  /** The slots of a subject after the matrices were attached: the last matrix of its id, if it owns the id. */
  function PbrSlots(slots: map<string, Datum<Pbr>>, owner: bool, last: Option<Pbr>): (r: map<string, Datum<Pbr>>)
    ensures owner && last.Some? ==> "pbr" in r && r["pbr"] == PbrData(last.value)
    ensures !(owner && last.Some?) ==> r == slots
  {
    if owner && last.Some? then slots["pbr" := PbrData(last.value)] else slots
  }

  /** One more matrix attached: only the owner of its id has its `pbr` slot replaced. */
  lemma PbrStep(original: map<string, Datum<Pbr>>, before: map<string, Datum<Pbr>>, after: map<string, Datum<Pbr>>,
                owner: bool, id: string, prefix: seq<Pbr>, pbr: Pbr, target: bool)
    requires before == PbrSlots(original, owner, LastFor(prefix, id))
    requires target ==> owner && id == pbr.subjectId && after == AddedSlots(before, "pbr", PbrData(pbr))
    requires !target ==> after == before && (id == pbr.subjectId ==> !owner)
    ensures after == PbrSlots(original, owner, LastFor(prefix + [pbr], id))
  {
    LastForAppend(prefix, pbr, id);
  }

  /**
   * The `cantab` slot a subject with this name id and date of birth is given:
   * the table's lookup with the date printed as `dd/mm/yy`.
   */
  function CantabSlot(table: RowBySessionResults, nameId: string, dob: Date): (d: Datum<Pbr>)
    requires dob.Valid() && table.SubjectResults(nameId, FormatDate(dob)).Ok?
    ensures d.CantabData? && Ok(d.cantab) == table.SubjectResults(nameId, FormatDate(dob))
  {
    CantabData(table.SubjectResults(nameId, FormatDate(dob)).value)
  }

  /**
   * The exception a subject's turn in the CANTAB pass raises, if any:
   * `strftime` on a missing date of birth; then lowering the table's
   * `Subject ID` column; then `lower` on a missing name id; then the
   * lookup's own exception. (A date of birth that is not a valid date does
   * not occur in a valid subject.)
   */
  function Failure(table: RowBySessionResults, was: Snapshot): (e: Option<Exception>)
    ensures was.dateOfBirth.None? ==> e == Some(AttributeError)
    ensures was.dateOfBirth.Some? && was.nameId.None? ==>
      e == if table.NameColumnError().Some? then table.NameColumnError() else Some(AttributeError)
    ensures was.dateOfBirth.Some? && was.dateOfBirth.value.Valid() && was.nameId.Some? ==>
      var r := table.SubjectResults(was.nameId.value, FormatDate(was.dateOfBirth.value));
      (e.None? <==> r.Ok?) && (r.Err? ==> e == Some(r.exception))
  {
    if was.dateOfBirth.None? then Some(AttributeError)
    else if table.NameColumnError().Some? then table.NameColumnError()
    else if was.nameId.None? then Some(AttributeError)
    else if !was.dateOfBirth.value.Valid() then None
    else
      match table.SubjectResults(was.nameId.value, FormatDate(was.dateOfBirth.value))
      case Err(e) => Some(e)
      case Ok(_) => None
  }

  /** What the CANTAB pass gives a subject whose turn does not raise: the lookup. */
  function Lookup(table: RowBySessionResults, was: Snapshot): (d: Datum<Pbr>)
    ensures Failure(table, was).None? && was.dateOfBirth.Some? && was.dateOfBirth.value.Valid() ==>
      was.nameId.Some? && d == CantabSlot(table, was.nameId.value, was.dateOfBirth.value)
  {
    if Failure(table, was).None? && was.dateOfBirth.Some? && was.dateOfBirth.value.Valid()
    then CantabSlot(table, was.nameId.value, was.dateOfBirth.value)
    else Foreign
  }

  /** The lookups of the subjects, in registry order. */
  function Lookups(table: RowBySessionResults, was: seq<Snapshot>): (r: seq<Datum<Pbr>>)
    ensures |r| == |was|
  {
    if was == [] then [] else [Lookup(table, was[0])] + Lookups(table, was[1..])
  }

  lemma {:induction false} LookupsAt(table: RowBySessionResults, was: seq<Snapshot>, k: nat)
    requires k < |was|
    ensures Lookups(table, was)[k] == Lookup(table, was[k])
  {
    if k > 0 {
      LookupsAt(table, was[1..], k - 1);
    }
  }

  /** The slots of a subject after the CANTAB pass: a served subject has its `cantab` slot set to its lookup. */
  function ServedSlots(slots: map<string, Datum<Pbr>>, lookup: Datum<Pbr>, served: bool): (r: map<string, Datum<Pbr>>)
    ensures served ==> "cantab" in r && r["cantab"] == lookup
    ensures !served ==> r == slots
  {
    if served then slots["cantab" := lookup] else slots
  }

  /** Whether `x` is one of the first `n` listings of `ss`. */
  predicate Listed(ss: seq<Subject>, x: Subject, n: nat)
    requires n <= |ss|
  {
    n > 0 && (ss[n - 1] == x || Listed(ss, x, n - 1))
  }

  /** Serving a subject again, or for the first time, leaves it with exactly its lookup. */
  lemma ServeOne(original: map<string, Datum<Pbr>>, before: map<string, Datum<Pbr>>, after: map<string, Datum<Pbr>>,
                 lookup: Datum<Pbr>, wasServed: bool)
    requires lookup.CantabData?
    requires before == ServedSlots(original, lookup, wasServed)
    requires after == AddedSlots(before, "cantab", lookup)
    ensures after == ServedSlots(original, lookup, true)
  {
  }

  lemma TakeOneMore<T>(s: seq<T>, k: nat)
    requires k < |s|
    ensures s[..k + 1] == s[..k] + [s[k]]
  {
  }

  /** The position of the first subject whose turn in the CANTAB pass raises, or the count. */
  function FirstFailing(table: RowBySessionResults, was: seq<Snapshot>): (j: nat)
    ensures j <= |was|
    ensures forall q :: 0 <= q < j ==> Failure(table, was[q]).None?
    ensures j < |was| ==> Failure(table, was[j]).Some?
  {
    if was == [] then 0
    else if Failure(table, was[0]).Some? then 0
    else 1 + FirstFailing(table, was[1..])
  }

  /** A subject whose turn raises, at or before the stop, is the stop. */
  lemma FailingHere(table: RowBySessionResults, was: seq<Snapshot>, k: nat)
    requires k < |was| && k <= FirstFailing(table, was)
    requires Failure(table, was[k]).Some?
    ensures k == FirstFailing(table, was)
  {
  }

  /** A subject whose turn does not raise, at or before the stop, is before it. */
  lemma NotFailingYet(table: RowBySessionResults, was: seq<Snapshot>, k: nat)
    requires k < |was| && k <= FirstFailing(table, was)
    requires Failure(table, was[k]).None?
    ensures k < FirstFailing(table, was)
  {
  }

  /** Only the name ids and the dates of birth decide where the CANTAB pass stops. */
  lemma {:induction false} SameFailing(table: RowBySessionResults, a: seq<Snapshot>, b: seq<Snapshot>)
    requires |a| == |b|
    requires forall k :: 0 <= k < |a| ==> a[k].nameId == b[k].nameId && a[k].dateOfBirth == b[k].dateOfBirth
    ensures FirstFailing(table, a) == FirstFailing(table, b)
  {
    if a != [] {
      assert Failure(table, a[0]) == Failure(table, b[0]);
      SameFailing(table, a[1..], b[1..]);
    }
  }

  /** A known id at or before the first unknown one is before it. */
  lemma KnownNext(ids: seq<string>, pbrs: seq<Pbr>, j: nat)
    requires j < |pbrs| && j <= FirstUnknown(ids, pbrs) && First(ids, pbrs[j].subjectId).Some?
    ensures j < FirstUnknown(ids, pbrs)
  {
  }

  /** An unknown id at or before the first unknown one is the first unknown one. */
  lemma StopsAt(ids: seq<string>, pbrs: seq<Pbr>, j: nat)
    requires j < |pbrs| && j <= FirstUnknown(ids, pbrs) && First(ids, pbrs[j].subjectId).None?
    ensures FirstUnknown(ids, pbrs) == j
  {
  }
}
