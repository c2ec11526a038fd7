/** The Mesh class of src/mesh.cpp: the vertex, index and texture lists of
    one renderable surface, the GPU copy its load and unload calls manage,
    and the texture-unit and sampler-uniform assignment of its draw call.
    The GL calls themselves are recorded, not executed. */
module Meshes {
  import opened Geometry

  /** The GL calls that Mesh::draw issues, in order. */
  datatype GlCall =
    | ActiveTexture(unit: nat)                          // glActiveTexture(GL_TEXTURE0 + unit)
    | Uniform1i(program: nat, name: string, value: nat) // glUniform1i(glGetUniformLocation(program, name), value)
    | BindTexture(id: nat)                              // glBindTexture(GL_TEXTURE_2D, id)
    | BindMeshVertexArray                               // glBindVertexArray(vao), the mesh's own vertex array
    | DrawElements(count: nat)                          // glDrawElements(GL_TRIANGLES, count, GL_UNSIGNED_INT, 0)
    | UnbindVertexArray                                 // glBindVertexArray(0)

  /** What the mesh's vertex and element buffers hold on the GPU. */
  datatype GpuBuffers = NoBuffers | Buffers(vertices: seq<Vertex>, indices: seq<nat>)

  /** The value of a mesh: its three lists. */
  datatype MeshData = MeshData(vertices: seq<Vertex>, indices: seq<nat>, textures: seq<Texture>)

  function Digit(d: nat): (c: char)
    requires d < 10
    ensures '0' <= c <= '9'
  {
    (48 + d) as char
  }

  /** std::to_string of an unsigned counter: its decimal digits. */
  function Decimal(n: nat): (s: string)
    ensures |s| >= 1 && (n >= 10 <==> |s| >= 2)
    decreases n
  {
    if n < 10 then [Digit(n)] else Decimal(n / 10) + [Digit(n % 10)]
  }

  /** Different counters give different digit strings. */
  lemma {:induction false} DecimalInjective(a: nat, b: nat)
    requires Decimal(a) == Decimal(b)
    ensures a == b
    decreases a
  {
    var sa, sb := Decimal(a), Decimal(b);
    if a >= 10 && b >= 10 {
      assert sa[|sa| - 1] == Digit(a % 10) && sb[|sb| - 1] == Digit(b % 10);
      assert sa[..|sa| - 1] == Decimal(a / 10) && sb[..|sb| - 1] == Decimal(b / 10);
      DecimalInjective(a / 10, b / 10);
    } else {
      assert sa[0] == sb[0];
    }
  }

  /** A texture whose type is exactly "diffuse" is numbered by the diffuse
      counter; every other type is numbered by the specular counter. */
  predicate UsesDiffuseCounter(typeName: string)
  {
    typeName == "diffuse"
  }

  /** How many of the first `i` textures are numbered by the diffuse counter
      (`diffuse`) or by the specular counter (`!diffuse`). */
  function CounterBefore(types: seq<string>, i: nat, diffuse: bool): nat
    requires i <= |types|
  {
    if i == 0 then 0
    else CounterBefore(types, i - 1, diffuse) + (if UsesDiffuseCounter(types[i - 1]) == diffuse then 1 else 0)
  }

  /** The sampler uniform of texture i: "material." + type + n, where n
      counts the earlier textures numbered by the same counter. */
  function UniformName(types: seq<string>, i: nat): string
    requires i < |types|
  {
    "material." + types[i] + Decimal(CounterBefore(types, i, UsesDiffuseCounter(types[i])))
  }

  function TypesOf(textures: seq<Texture>): (types: seq<string>)
    ensures |types| == |textures| && forall i :: 0 <= i < |textures| ==> types[i] == textures[i].typeName
  {
    seq(|textures|, i requires 0 <= i < |textures| => textures[i].typeName)
  }

  /** A counter only grows along the list, and strictly past a texture it numbers. */
  lemma {:induction false} CounterBeforeGrows(types: seq<string>, i: nat, j: nat, diffuse: bool)
    requires i < j <= |types|
    ensures CounterBefore(types, i, diffuse) + (if UsesDiffuseCounter(types[i]) == diffuse then 1 else 0)
            <= CounterBefore(types, j, diffuse)
    decreases j
  {
    if j > i + 1 {
      CounterBeforeGrows(types, i, j - 1, diffuse);
    }
  }

  /** When every texture is "diffuse" or "specular" (what the model loader
      produces), no two textures of a mesh get the same sampler uniform. */
  lemma UniformNamesDistinct(types: seq<string>, i: nat, j: nat)
    requires forall k :: 0 <= k < |types| ==> types[k] == "diffuse" || types[k] == "specular"
    requires i < j < |types|
    ensures UniformName(types, i) != UniformName(types, j)
  {
    var prefix := "material.";
    var ni, nj := UniformName(types, i), UniformName(types, j);
    if types[i] == types[j] {
      var d := UsesDiffuseCounter(types[i]);
      CounterBeforeGrows(types, i, j, d);
      var p := prefix + types[i];
      if ni == nj {
        assert ni[|p|..] == Decimal(CounterBefore(types, i, d));
        assert nj[|p|..] == Decimal(CounterBefore(types, j, d));
        DecimalInjective(CounterBefore(types, i, d), CounterBefore(types, j, d));
      }
    } else {
      assert ni[9] != nj[9];
    }
  }

  /** The numbering restarts per counter, and a type other than "diffuse"
      takes the specular counter. */
  lemma UniformNameExample()
    ensures var types := ["diffuse", "normal", "specular", "diffuse"];
      UniformName(types, 0) == "material.diffuse0" &&
      UniformName(types, 1) == "material.normal0" &&
      UniformName(types, 2) == "material.specular1" &&
      UniformName(types, 3) == "material.diffuse1"
  {
    var types := ["diffuse", "normal", "specular", "diffuse"];
    assert !UsesDiffuseCounter("normal") && !UsesDiffuseCounter("specular");
    assert CounterBefore(types, 1, true) == 1;
    assert CounterBefore(types, 2, false) == 1;
    assert CounterBefore(types, 3, true) == 1;
  }

  /** The calls that bind the first n textures: for texture i, select unit
      i, point its sampler uniform at unit i and bind the texture there. */
  function BindCalls(shaderId: nat, textures: seq<Texture>, n: nat): seq<GlCall>
    requires n <= |textures|
  {
    if n == 0 then []
    else
      var i := n - 1;
      BindCalls(shaderId, textures, i) +
      [ActiveTexture(i), Uniform1i(shaderId, UniformName(TypesOf(textures), i), i), BindTexture(textures[i].id)]
  }

  /** Texture i is bound to unit i, and its sampler uniform is set to i. */
  lemma {:induction false} BindCallsAt(shaderId: nat, textures: seq<Texture>, n: nat, i: nat)
    requires i < n <= |textures|
    ensures |BindCalls(shaderId, textures, n)| == 3 * n
    ensures BindCalls(shaderId, textures, n)[3 * i] == ActiveTexture(i)
    ensures BindCalls(shaderId, textures, n)[3 * i + 1] == Uniform1i(shaderId, UniformName(TypesOf(textures), i), i)
    ensures BindCalls(shaderId, textures, n)[3 * i + 2] == BindTexture(textures[i].id)
  {
    BindCallsLength(shaderId, textures, n - 1);
    if i < n - 1 {
      BindCallsAt(shaderId, textures, n - 1, i);
    }
  }

  lemma {:induction false} BindCallsLength(shaderId: nat, textures: seq<Texture>, n: nat)
    requires n <= |textures|
    ensures |BindCalls(shaderId, textures, n)| == 3 * n
  {
    if n > 0 {
      BindCallsLength(shaderId, textures, n - 1);
    }
  }

  class Mesh {
    var vertices: seq<Vertex>
    var indices: seq<nat>
    var textures: seq<Texture>
    /** The contents of the mesh's vertex and element buffers on the GPU. */
    var gpu: GpuBuffers

    /** Stores the three lists exactly as given; nothing is on the GPU yet. */
    constructor (meshVertices: seq<Vertex>, meshIndices: seq<nat>, meshTextures: seq<Texture>)
      ensures vertices == meshVertices && indices == meshIndices && textures == meshTextures
      ensures gpu == NoBuffers
    {
      vertices := meshVertices;
      indices := meshIndices;
      textures := meshTextures;
      gpu := NoBuffers;
    }

    function Data(): MeshData
      reads this`vertices, this`indices, this`textures
    {
      MeshData(vertices, indices, textures)
    }

    /** Mesh::load: uploads the vertices and indices into new GPU buffers. */
    method Load()
      modifies this`gpu
      ensures gpu == Buffers(vertices, indices)
    {
      gpu := Buffers(vertices, indices);
    }

    /** The re-upload after the vertices changed; mesh.hpp declares no such
        member, so it is modelled as uploading the current lists again. */
    method Reload()
      modifies this`gpu
      ensures gpu == Buffers(vertices, indices)
    {
      gpu := Buffers(vertices, indices);
    }

    /** Mesh::unload: disables the attributes and deletes the buffers. */
    method Unload()
      modifies this`gpu
      ensures gpu == NoBuffers
    {
      gpu := NoBuffers;
    }

    /** Mesh::draw: binds texture i to unit i and sets its sampler uniform to
        i, resets the active unit to 0, and draws all indices with the
        mesh's vertex array bound, unbinding it afterwards. */
    method Draw(shaderId: nat) returns (calls: seq<GlCall>)
      ensures calls == BindCalls(shaderId, textures, |textures|) + [ActiveTexture(0), BindMeshVertexArray, DrawElements(|indices|), UnbindVertexArray]
    {
      ghost var types := TypesOf(textures);
      var diffuseNo: nat, specularNo: nat := 0, 0;
      calls := [];
      var i := 0;
      while i < |textures|
        invariant 0 <= i <= |textures|
        invariant calls == BindCalls(shaderId, textures, i)
        invariant diffuseNo == CounterBefore(types, i, true)
        invariant specularNo == CounterBefore(types, i, false)
      {
        var name := textures[i].typeName;
        var number: string;
        if name == "diffuse" {
          number := Decimal(diffuseNo);
          diffuseNo := diffuseNo + 1;
        } else {
          number := Decimal(specularNo);
          specularNo := specularNo + 1;
        }
        calls := calls + [ActiveTexture(i), Uniform1i(shaderId, "material." + name + number, i), BindTexture(textures[i].id)];
        i := i + 1;
      }
      calls := calls + [ActiveTexture(0), BindMeshVertexArray, DrawElements(|indices|), UnbindVertexArray];
    }
  }
}
