/**
 * The BrainAtlas of the `cortical_layers/helpers` package: region ids are the
 * template labels as they are, with no index shift.
 */
module HelperAtlas {
  import opened Grids
  import opened Templates

  class BrainAtlas {
    const name: string
    const path: string
    /** The template volume, loaded from `path` by nibabel (an external reader): given here. */
    const template: Template
    const regionIds: seq<int>
    const nRegions: nat

    predicate Valid()
    {
      template.Valid() && regionIds == Unique(template.labels) && nRegions == |regionIds|
    }

    /** `__init__`: the region ids are the sorted distinct labels, `n_regions` their count. */
    constructor (name: string, path: string, template: Template)
      requires template.Valid()
      ensures Valid()
      ensures this.name == name && this.path == path && this.template == template
      ensures StrictlyIncreasing(regionIds) && (forall r :: r in regionIds <==> r in template.labels)
      ensures nRegions == |regionIds|
    {
      this.name := name;
      this.path := path;
      this.template := template;
      regionIds := Unique(template.labels);
      nRegions := |Unique(template.labels)|;
    }

    /**
     * `convert_from_dict`: start from a zero array of the template's size and,
     * for every region id that is a key, write its value into that region's voxels.
     */
    method ConvertFromDict(valueDict: map<int, real>) returns (r: Volume)
      requires Valid()
      ensures r == ProjectVolume(template, valueDict)
    {
      var linear := template.labels;
      var out := new real[|linear|](_ => 0.0);
      var i := 0;
      while i < |regionIds|
        invariant 0 <= i <= |regionIds|
        invariant forall k :: 0 <= k < out.Length ==>
          out[k] == if linear[k] in regionIds[..i] && linear[k] in valueDict then valueDict[linear[k]] else 0.0
      {
        var id := regionIds[i];
        assert regionIds[..i + 1] == regionIds[..i] + [id];
        if id in valueDict {
          FillLabel(out, linear, id, valueDict[id]);
        }
        i := i + 1;
      }
      assert regionIds[..i] == regionIds;
      assert out[..] == Projection(linear, valueDict);
      r := Reshape(out[..], template.nx, template.ny, template.nz);
    }
  }

  /** Dafny-level counterpart of the conversion, for use in functions and lemmas. */
  lemma ConvertedVoxel(t: Template, d: map<int, real>, a: nat, b: nat, c: nat)
    requires t.Valid() && a < t.nx && b < t.ny && c < t.nz
    ensures Offset(a, b, c, t.ny, t.nz) < |t.labels|
    ensures var lab := t.labels[Offset(a, b, c, t.ny, t.nz)];
      && (lab in d ==> ProjectVolume(t, d).at[a][b][c] == d[lab])
      && (lab !in d ==> ProjectVolume(t, d).at[a][b][c] == 0.0)
  {
    ProjectVolumeAt(t, d, a, b, c);
  }

  /** No shift: a key 0 is written onto the background voxels labelled 0. */
  lemma BackgroundKeyApplies(t: Template, d: map<int, real>, a: nat, b: nat, c: nat)
    requires t.Valid() && a < t.nx && b < t.ny && c < t.nz
    requires 0 in d
    requires Offset(a, b, c, t.ny, t.nz) < |t.labels| && t.labels[Offset(a, b, c, t.ny, t.nz)] == 0
    ensures ProjectVolume(t, d).at[a][b][c] == d[0]
  {
    ProjectVolumeAt(t, d, a, b, c);
  }
}
