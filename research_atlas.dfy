/**
 * The BrainAtlas of the `research` package. Its `convert_from_dict` accepts
 * both 1-based and 0-based region dictionaries: when 0 is a key, every key is
 * read as "region id minus one", so region id L takes the value of key L - 1.
 */
module ResearchAtlas {
  import opened Grids
  import opened Templates

  /** `[key + 1 for key in value_dict.keys()]`, as a set. */
  function RaisedKeys(d: map<int, real>): (r: set<int>)
    ensures forall k :: k in r <==> k - 1 in d
  {
    var r := set j | j in d :: j + 1;
    assert forall k :: k - 1 in d ==> k in r by {
      forall k | k - 1 in d ensures k in r {
        var j := k - 1;
        assert j + 1 in r;
      }
    }
    r
  }

  /** The 0-based dictionary re-keyed by region id: key j becomes region j + 1. */
  function ShiftUp(d: map<int, real>): (e: map<int, real>)
    ensures forall k :: k in e <==> k - 1 in d
    ensures forall k :: k in e ==> e[k] == d[k - 1]
  {
    map k | k in RaisedKeys(d) :: d[k - 1]
  }

  /** The dictionary the conversion effectively applies, keyed by region id. */
  function Effective(d: map<int, real>): (e: map<int, real>)
    ensures 0 !in d ==> e == d
  {
    if 0 in d then ShiftUp(d) else d
  }

  class BrainAtlas {
    const name: string
    const path: string
    /** The template volume, loaded from `path` by nibabel (an external reader): given here. */
    const template: Template
    const regionIds: seq<int>
    const nRegions: nat

    predicate Valid()
    {
      template.Valid() && regionIds == Unique(template.labels) && nRegions == |regionIds|
    }

    /** `__init__`: the region ids are the sorted distinct labels, `n_regions` their count. */
    constructor (name: string, path: string, template: Template)
      requires template.Valid()
      ensures Valid()
      ensures this.name == name && this.path == path && this.template == template
      ensures StrictlyIncreasing(regionIds) && (forall r :: r in regionIds <==> r in template.labels)
      ensures nRegions == |regionIds|
    {
      this.name := name;
      this.path := path;
      this.template := template;
      regionIds := Unique(template.labels);
      nRegions := |Unique(template.labels)|;
    }

    /**
     * `convert_from_dict`: the accepted keys are the dictionary's keys, each
     * raised by one when 0 is among them; every region id among the accepted
     * keys has its voxels set from the dictionary (through `id - 1` when
     * shifted), every other voxel stays 0.
     */
    method ConvertFromDict(valueDict: map<int, real>) returns (r: Volume)
      requires Valid()
      ensures r == ProjectVolume(template, Effective(valueDict))
    {
      var linear := template.labels;
      var out := new real[|linear|](_ => 0.0);
      var keys: set<int>;
      var subtract: bool;
      if 0 in valueDict {
        keys := RaisedKeys(valueDict);
        subtract := true;
      } else {
        keys := valueDict.Keys;
        subtract := false;
      }
      ghost var e := Effective(valueDict);
      assert forall id :: id in keys <==> id in e;
      var i := 0;
      while i < |regionIds|
        invariant 0 <= i <= |regionIds|
        invariant forall k :: 0 <= k < out.Length ==>
          out[k] == if linear[k] in regionIds[..i] && linear[k] in e then e[linear[k]] else 0.0
      {
        var id := regionIds[i];
        assert regionIds[..i + 1] == regionIds[..i] + [id];
        if id in keys {
          var key := id;
          if subtract {
            key := key - 1;
          }
          FillLabel(out, linear, id, valueDict[key]);
        }
        i := i + 1;
      }
      assert regionIds[..i] == regionIds;
      assert out[..] == Projection(linear, e);
      r := Reshape(out[..], template.nx, template.ny, template.nz);
    }
  }

  /** The value of one voxel after conversion, in terms of its label and the dictionary. */
  lemma ConvertedVoxel(t: Template, d: map<int, real>, a: nat, b: nat, c: nat)
    requires t.Valid() && a < t.nx && b < t.ny && c < t.nz
    ensures Offset(a, b, c, t.ny, t.nz) < |t.labels|
    ensures var lab := t.labels[Offset(a, b, c, t.ny, t.nz)];
      var v := ProjectVolume(t, Effective(d)).at[a][b][c];
      && (0 in d && lab - 1 in d ==> v == d[lab - 1])
      && (0 in d && lab - 1 !in d ==> v == 0.0)
      && (0 !in d && lab in d ==> v == d[lab])
      && (0 !in d && lab !in d ==> v == 0.0)
  {
    ProjectVolumeAt(t, Effective(d), a, b, c);
  }

  /**
   * A 0-based dictionary over non-negative keys leaves the background (label 0)
   * at zero, since no key -1 exists.
   */
  lemma ShiftedBackgroundIsZero(t: Template, d: map<int, real>, a: nat, b: nat, c: nat)
    requires t.Valid() && a < t.nx && b < t.ny && c < t.nz
    requires 0 in d && forall k :: k in d ==> k >= 0
    requires Offset(a, b, c, t.ny, t.nz) < |t.labels| && t.labels[Offset(a, b, c, t.ny, t.nz)] == 0
    ensures ProjectVolume(t, Effective(d)).at[a][b][c] == 0.0
  {
    ProjectVolumeAt(t, Effective(d), a, b, c);
  }

  /** The 1-based dictionary re-keyed from 0: region k becomes key k - 1. */
  function ShiftDown(d: map<int, real>): (e: map<int, real>)
    ensures forall k :: k in e <==> k + 1 in d
    ensures forall k :: k in e ==> e[k] == d[k + 1]
  {
    var keys := set k | k in d :: k - 1;
    assert forall j :: j + 1 in d ==> j in keys by {
      forall j | j + 1 in d ensures j in keys {
        var k := j + 1;
        assert k - 1 in keys;
      }
    }
    map j | j in keys :: d[j + 1]
  }

  /**
   * The two key conventions are interchangeable: a 1-based dictionary and its
   * 0-based re-keying convert to the same volume.
   */
  lemma {:induction false} ZeroAndOneBasedAgree(t: Template, d: map<int, real>)
    requires t.Valid()
    requires 1 in d && forall k :: k in d ==> k >= 1
    ensures ProjectVolume(t, Effective(ShiftDown(d))) == ProjectVolume(t, d)
  {
    var z := ShiftDown(d);
    assert 0 in z;
    assert ShiftUp(z) == d;
  }
}
