/**
  RS_Model: a list of meshes and a list of materials, drawn pairwise.

  Mesh i is drawn with material i; the material's uniform block is uploaded,
  its base-colour texture (when it has one) is bound to texture unit 0, and
  the `hasTexCoords` and `useMaterial` uniforms are set before the mesh is
  drawn. Matrices and the uniform-buffer upload are GL effects left abstract;
  a draw is recorded as one `MeshDraw`.
 */
module Models {
  import opened Results

  /** A GPU mesh, reduced to what the draw loop reads of it. */
  datatype Mesh = Mesh(hasTexCoords: bool)

  /** A material; `baseColorTex` is the texture name the material points to, if any. */
  datatype Material = Material(baseColorTex: Option<nat>)

  datatype Model = Model(meshes: seq<Mesh>, materials: seq<Material>)

  /** One iteration of the draw loop: which mesh and material it used and what it bound and set. */
  datatype MeshDraw = MeshDraw(mesh: nat, material: nat, unit0: Option<nat>, hasTexCoords: int, useMaterial: int)

  /** The texture unit the base colour is bound to. */
  const BaseColorUnit: nat := 0

  /** A new model holds no meshes and no materials. */
  function NewModel(): (m: Model)
    ensures |m.meshes| == 0 && |m.materials| == 0
  {
    Model([], [])
  }

  /** addMesh: the mesh goes to the end; the materials do not change. */
  function AddMesh(m: Model, mesh: Mesh): (r: Model)
    ensures |r.meshes| == |m.meshes| + 1 && r.meshes[..|m.meshes|] == m.meshes && r.meshes[|m.meshes|] == mesh
    ensures r.materials == m.materials
  {
    m.(meshes := m.meshes + [mesh])
  }

  /** addMaterial: the material goes to the end; the meshes do not change. */
  function AddMaterial(m: Model, material: Material): (r: Model)
    ensures |r.materials| == |m.materials| + 1 && r.materials[..|m.materials|] == m.materials
    ensures r.materials[|m.materials|] == material
    ensures r.meshes == m.meshes
  {
    m.(materials := m.materials + [material])
  }

  /** The draw loop reads `m_materials[i]` for every mesh index i. */
  predicate Drawable(m: Model)
  {
    |m.materials| >= |m.meshes|
  }

  /** What one iteration does for mesh i with material i. */
  function DrawOne(i: nat, mesh: Mesh, material: Material): (d: MeshDraw)
    ensures d.mesh == i && d.material == i && d.useMaterial == 1
    ensures d.unit0.Some? <==> material.baseColorTex.Some?
    ensures material.baseColorTex.Some? ==> d.unit0 == material.baseColorTex
    ensures d.hasTexCoords == 1 <==> mesh.hasTexCoords
    ensures d.hasTexCoords == 0 <==> !mesh.hasTexCoords
  {
    MeshDraw(i, i, material.baseColorTex, if mesh.hasTexCoords then 1 else 0, 1)
  }

  /** The draws of the first |meshes| iterations, as a reference definition. */
  function DrawList(meshes: seq<Mesh>, materials: seq<Material>): (r: seq<MeshDraw>)
    requires |materials| >= |meshes|
    ensures |r| == |meshes|
    decreases |meshes|
  {
    if |meshes| == 0 then []
    else
      var n := |meshes| - 1;
      DrawList(meshes[..n], materials) + [DrawOne(n, meshes[n], materials[n])]
  }

  /** Entry i of the reference list is mesh i drawn with material i. */
  lemma {:induction false} DrawListAt(meshes: seq<Mesh>, materials: seq<Material>, i: nat)
    requires |materials| >= |meshes| && i < |meshes|
    ensures DrawList(meshes, materials)[i] == DrawOne(i, meshes[i], materials[i])
    decreases |meshes|
  {
    var n := |meshes| - 1;
    if i < n {
      DrawListAt(meshes[..n], materials, i);
    }
  }

  /**
    draw: visits the meshes in index order, each exactly once, pairing mesh i
    with material i.
   */
  method Draw(m: Model) returns (draws: seq<MeshDraw>)
    requires Drawable(m)
    ensures |draws| == |m.meshes|
    ensures forall i :: 0 <= i < |draws| ==> draws[i].mesh == i && draws[i].material == i
    ensures forall i :: 0 <= i < |draws| ==> draws[i].useMaterial == 1
    ensures forall i :: 0 <= i < |draws| ==> (draws[i].unit0 == m.materials[i].baseColorTex)
    ensures forall i :: 0 <= i < |draws| ==> (draws[i].hasTexCoords == 1 <==> m.meshes[i].hasTexCoords)
    ensures forall i :: 0 <= i < |draws| ==> (draws[i].hasTexCoords == 0 <==> !m.meshes[i].hasTexCoords)
    ensures draws == DrawList(m.meshes, m.materials)
  {
    draws := [];
    var i := 0;
    while i < |m.meshes|
      invariant 0 <= i <= |m.meshes|
      invariant draws == DrawList(m.meshes[..i], m.materials)
      invariant forall k :: 0 <= k < i ==> draws[k] == DrawOne(k, m.meshes[k], m.materials[k])
    {
      var material := m.materials[i];
      var d := DrawOne(i, m.meshes[i], material);
      assert m.meshes[..i + 1][..i] == m.meshes[..i];
      draws := draws + [d];
      i := i + 1;
    }
    assert m.meshes[..i] == m.meshes;
  }

  /** Adding a material to a drawable model does not change what is drawn. */
  lemma {:induction false} AddMaterialKeepsDraws(meshes: seq<Mesh>, materials: seq<Material>, material: Material)
    requires |materials| >= |meshes|
    ensures DrawList(meshes, materials + [material]) == DrawList(meshes, materials)
    decreases |meshes|
  {
    if |meshes| > 0 {
      var n := |meshes| - 1;
      AddMaterialKeepsDraws(meshes[..n], materials, material);
      assert (materials + [material])[n] == materials[n];
    }
  }

  /** Adding a mesh that already has its material appends exactly one draw, with that material. */
  lemma AddMeshAppendsDraw(m: Model, mesh: Mesh)
    requires |m.materials| > |m.meshes|
    ensures Drawable(AddMesh(m, mesh))
    ensures DrawList(AddMesh(m, mesh).meshes, m.materials)
         == DrawList(m.meshes, m.materials) + [DrawOne(|m.meshes|, mesh, m.materials[|m.meshes|])]
  {
    assert (m.meshes + [mesh])[..|m.meshes|] == m.meshes;
  }

  /** A mesh added together with its material is drawn last, with that material. */
  lemma AddPairDrawsLast(m: Model, mesh: Mesh, material: Material)
    requires |m.materials| == |m.meshes|
    ensures var r := AddMaterial(AddMesh(m, mesh), material);
            && Drawable(r)
            && DrawList(r.meshes, r.materials) == DrawList(m.meshes, m.materials) + [DrawOne(|m.meshes|, mesh, material)]
  {
    var r := AddMaterial(AddMesh(m, mesh), material);
    assert r.meshes[..|m.meshes|] == m.meshes;
    AddMaterialKeepsDraws(m.meshes, m.materials, material);
  }
}
