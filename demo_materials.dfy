/**
 * The demo-material asset (RCC_DemoMaterials): two nullable arrays of nullable material
 * references, a cleaning pass that drops the null entries, and the car-body shader switch.
 * The engine's shader registry (Shader.Find) is passed in as a map from shader name to
 * shader, and the render-pipeline test (IsURP) as a boolean.
 */
module Materials {

  class Shader {
    const name: string

    constructor (name: string)
      ensures this.name == name
    {
      this.name := name;
    }
  }

  class Material {
    const name: string
    var shader: Shader

    constructor (name: string, shader: Shader)
      ensures this.name == name && this.shader == shader
    {
      this.name := name;
      this.shader := shader;
    }
  }

  /** The non-null entries of s, in their original order. */
  function NonNull(s: seq<Material?>): (r: seq<Material?>)
  {
    if s == [] then []
    else if s[|s| - 1] == null then NonNull(s[..|s| - 1])
    else NonNull(s[..|s| - 1]) + [s[|s| - 1]]
  }

  lemma {:induction false} NonNullHasNoNull(s: seq<Material?>)
    ensures null !in NonNull(s)
  {
    if s != [] {
      NonNullHasNoNull(s[..|s| - 1]);
    }
  }

  /** Cleaning keeps every non-null entry as often as it occurs and drops every null. */
  lemma {:induction false} NonNullCounts(s: seq<Material?>)
    ensures multiset(NonNull(s)) == multiset(s)[null := 0]
    ensures |NonNull(s)| == |s| - multiset(s)[null]
  {
    if s != [] {
      var init := s[..|s| - 1];
      NonNullCounts(init);
      assert s == init + [s[|s| - 1]];
    }
  }

  /** Cleaning distributes over concatenation, so entries keep their relative order. */
  lemma {:induction false} NonNullAppend(a: seq<Material?>, b: seq<Material?>)
    ensures NonNull(a + b) == NonNull(a) + NonNull(b)
    decreases |b|
  {
    if b == [] {
      assert a + b == a;
    } else {
      var init := b[..|b| - 1];
      assert (a + b)[..|a + b| - 1] == a + init;
      NonNullAppend(a, init);
    }
  }

  /** A sequence without nulls is left as it is. */
  lemma {:induction false} NonNullOfClean(s: seq<Material?>)
    requires null !in s
    ensures NonNull(s) == s
  {
    if s != [] {
      var init := s[..|s| - 1];
      assert null !in init;
      NonNullOfClean(init);
      assert s == init + [s[|s| - 1]];
    }
  }

  /** Cleaning twice is cleaning once. */
  lemma NonNullIdempotent(s: seq<Material?>)
    ensures NonNull(NonNull(s)) == NonNull(s)
  {
  }

  /** The list one cleaning loop of CleanEmptyMaterials builds before ToArray. */
  method CollectNonNull(materials: array<Material?>) returns (list: seq<Material?>)
    ensures list == NonNull(materials[..])
  {
    list := [];
    for i := 0 to materials.Length
      invariant list == NonNull(materials[..i])
    {
      assert materials[..i + 1][..i] == materials[..i];
      if materials[i] != null {
        list := list + [materials[i]];
      }
    }
    assert materials[..materials.Length] == materials[..];
  }

  /** The shader Shader.Find answers for a name, or None for C#'s null. */
  function FindShader(shaders: map<string, Shader>, name: string): Shader?
  {
    if name in shaders then shaders[name] else null
  }

  class DemoMaterials {
    var demoMaterials: array?<Material?>
    var demoVehicleMaterials: array?<Material?>
    var builtInShaderNameForCarBody: string
    var urpShaderNameForCarBody: string

    constructor (demoMaterials: array?<Material?>, demoVehicleMaterials: array?<Material?>)
      ensures this.demoMaterials == demoMaterials
      ensures this.demoVehicleMaterials == demoVehicleMaterials
      ensures builtInShaderNameForCarBody == "RCC Car Body Shader"
      ensures urpShaderNameForCarBody == "RCC Car Body Shader URP"
    {
      this.demoMaterials := demoMaterials;
      this.demoVehicleMaterials := demoVehicleMaterials;
      builtInShaderNameForCarBody := "RCC Car Body Shader";
      urpShaderNameForCarBody := "RCC Car Body Shader URP";
    }

    /** The non-null vehicle materials. */
    ghost function VehicleMaterials(): set<Material?>
      reads this, demoVehicleMaterials
    {
      if demoVehicleMaterials == null then {}
      else set i | 0 <= i < demoVehicleMaterials.Length && demoVehicleMaterials[i] != null :: demoVehicleMaterials[i]
    }

    /** The car-body shader name for the active pipeline. */
    function CarBodyShaderName(isURP: bool): string
      reads this
    {
      if !isURP then builtInShaderNameForCarBody else urpShaderNameForCarBody
    }

    /** Gives every non-null vehicle material the car-body shader of the active pipeline;
        changes nothing when the array is null or the shader is not found. */
    method ConvertCarBodyShadersToURP(isURP: bool, shaders: map<string, Shader>)
      modifies VehicleMaterials()
      ensures demoVehicleMaterials != null && CarBodyShaderName(isURP) in shaders ==>
                forall i :: 0 <= i < demoVehicleMaterials.Length && demoVehicleMaterials[i] != null ==>
                  demoVehicleMaterials[i].shader == shaders[CarBodyShaderName(isURP)]
      ensures demoVehicleMaterials == null || CarBodyShaderName(isURP) !in shaders ==>
                unchanged(VehicleMaterials())
    {
      if demoVehicleMaterials == null {
        return;
      }
      var shaderToAssign := FindShader(shaders, CarBodyShaderName(isURP));
      if shaderToAssign != null {
        var materials := demoVehicleMaterials;
        for i := 0 to materials.Length
          invariant forall k :: 0 <= k < i && materials[k] != null ==> materials[k].shader == shaderToAssign
        {
          var material := materials[i];
          if material != null {
            material.shader := shaderToAssign;
          }
        }
      }
    }

    /** Answers the environment materials as they are, null included. */
    function SelectEnvironmentShadersForURP(): (r: array?<Material?>)
      reads this
      ensures r == demoMaterials
    {
      if demoMaterials == null then null else demoMaterials
    }

    /** Replaces each non-null array by a fresh one holding only its non-null entries. */
    method CleanEmptyMaterials()
      modifies this
      ensures old(demoMaterials) == null ==> demoMaterials == null
      ensures old(demoMaterials) != null ==>
                demoMaterials != null && fresh(demoMaterials) && demoMaterials[..] == NonNull(old(demoMaterials[..]))
      ensures old(demoVehicleMaterials) == null ==> demoVehicleMaterials == null
      ensures old(demoVehicleMaterials) != null ==>
                demoVehicleMaterials != null && fresh(demoVehicleMaterials)
                && demoVehicleMaterials[..] == NonNull(old(demoVehicleMaterials[..]))
      ensures builtInShaderNameForCarBody == old(builtInShaderNameForCarBody)
      ensures urpShaderNameForCarBody == old(urpShaderNameForCarBody)
    {
      if demoMaterials != null {
        var materialsList := CollectNonNull(demoMaterials);
        demoMaterials := ToArray(materialsList);
      }
      if demoVehicleMaterials != null {
        var materialsVehicleList := CollectNonNull(demoVehicleMaterials);
        demoVehicleMaterials := ToArray(materialsVehicleList);
      }
    }
  }

  /** List<Material>.ToArray: a fresh array with the list's entries. */
  method ToArray(list: seq<Material?>) returns (a: array<Material?>)
    ensures fresh(a) && a[..] == list
  {
    a := new Material?[|list|](i requires 0 <= i < |list| => list[i]);
  }
}
